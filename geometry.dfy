/**
 * Query-geometry text: the bounding box of the reprojected exterior ring, the
 * bounds string handed to the reader stage, and the well-known-text polygon
 * handed to the crop stage (clause 7 of OGC 06-103r4, Simple Feature Access
 * Part 1: `POLYGON((x y, x y, ...))`).
 *
 * Coordinates are `real`; Python's float-to-text conversion (`f'{x}'`, and the
 * `repr` used inside a list) is the uninterpreted parameter `fmt`.
 */
module Geometry {

  /** One vertex; only the first two entries of a coordinate tuple are ever read. */
  datatype Point = Point(x: real, y: real)

  /** An axis-aligned box. shapely's `.bounds` yields (minx, miny, maxx, maxy). */
  datatype Box = Box(minX: real, maxX: real, minY: real, maxY: real)

  function Min(a: real, b: real): real { if a <= b then a else b }
  function Max(a: real, b: real): real { if a <= b then b else a }

  /**
   * The bounding box of the vertices, as shapely's `.bounds` gives it:
   * each axis has its own running minimum and maximum.
   */
  function Envelope(ring: seq<Point>): (b: Box)
    requires |ring| > 0
    ensures b.minX <= b.maxX && b.minY <= b.maxY
    ensures forall i :: 0 <= i < |ring| ==>
      b.minX <= ring[i].x <= b.maxX && b.minY <= ring[i].y <= b.maxY
    ensures exists i :: 0 <= i < |ring| && ring[i].x == b.minX
    ensures exists i :: 0 <= i < |ring| && ring[i].x == b.maxX
    ensures exists i :: 0 <= i < |ring| && ring[i].y == b.minY
    ensures exists i :: 0 <= i < |ring| && ring[i].y == b.maxY
  {
    if |ring| == 1 then Box(ring[0].x, ring[0].x, ring[0].y, ring[0].y)
    else
      var init := ring[..|ring| - 1];
      var b := Envelope(init);
      var p := ring[|ring| - 1];
      assert forall i :: 0 <= i < |init| ==> init[i] == ring[i];
      Box(Min(b.minX, p.x), Max(b.maxX, p.x), Min(b.minY, p.y), Max(b.maxY, p.y))
  }

  /** A ring whose vertices all coincide has a zero-area box (not an error). */
  lemma DegenerateEnvelope(ring: seq<Point>)
    requires |ring| > 0
    requires forall i :: 0 <= i < |ring| ==> ring[i] == ring[0]
    ensures Envelope(ring) == Box(ring[0].x, ring[0].x, ring[0].y, ring[0].y)
  {
  }

  // ---------------------------------------------------------------------------
  // Joining and splitting

  /** `sep.join(items)`, built from the back. */
  function Join(items: seq<string>, sep: string): string
  {
    if |items| == 0 then ""
    else if |items| == 1 then items[0]
    else Join(items[..|items| - 1], sep) + sep + items[|items| - 1]
  }

  /** Every item followed by `sep`: what a `text += item + sep` loop accumulates. */
  function Terminated(items: seq<string>, sep: string): string
  {
    if |items| == 0 then "" else Terminated(items[..|items| - 1], sep) + items[|items| - 1] + sep
  }

  /** Accumulating with a separator after each item and stripping the last one yields the join. */
  lemma {:induction false} TerminatedIsJoinThenSep(items: seq<string>, sep: string)
    requires |items| > 0
    ensures Terminated(items, sep) == Join(items, sep) + sep
  {
    var init := items[..|items| - 1];
    if |items| == 1 {
      assert init == [];
    } else {
      TerminatedIsJoinThenSep(init, sep);
    }
  }

  /** The join read from the front: the first item, the separator, the join of the rest. */
  lemma {:induction false} JoinFront(items: seq<string>, sep: string)
    requires |items| >= 2
    ensures Join(items, sep) == items[0] + sep + Join(items[1..], sep)
  {
    var init := items[..|items| - 1];
    if |items| == 2 {
      assert init == [items[0]];
      assert items[1..] == [items[1]];
    } else {
      JoinFront(init, sep);
      assert init[1..] == items[1..][..|items| - 2];
    }
  }

  /** The position of the first `c` in `s`, or `|s|` when there is none. */
  function IndexOf(s: string, c: char): (i: nat)
    ensures i <= |s|
    ensures i < |s| ==> s[i] == c
    ensures forall j :: 0 <= j < i ==> s[j] != c
  {
    if |s| == 0 then 0 else if s[0] == c then 0 else 1 + IndexOf(s[1..], c)
  }

  /**
   * Cuts `s` at every occurrence of the first character of `sep` and skips the
   * separator there: the decoder of `Join` for items free of that character.
   */
  function Split(s: string, sep: string): seq<string>
    requires |sep| > 0
    decreases |s|
  {
    var i := IndexOf(s, sep[0]);
    if i == |s| then [s]
    else [s[..i]] + Split(s[if i + |sep| <= |s| then i + |sep| else |s|..], sep)
  }

  /** Splitting a join gives back the items, in order and one for one. */
  lemma {:induction false} SplitJoin(items: seq<string>, sep: string)
    requires |items| > 0 && |sep| > 0
    requires forall i :: 0 <= i < |items| ==> sep[0] !in items[i]
    ensures Split(Join(items, sep), sep) == items
  {
    if |items| == 1 {
      assert IndexOf(items[0], sep[0]) == |items[0]|;
    } else {
      JoinFront(items, sep);
      var a, rest := items[0], Join(items[1..], sep);
      var s := Join(items, sep);
      assert s == a + (sep + rest);
      assert IndexOf(s, sep[0]) == |a| by {
        assert s[|a|] == sep[0];
        assert forall j :: 0 <= j < |a| ==> s[j] == a[j];
      }
      assert s[..|a|] == a;
      assert s[|a| + |sep|..] == rest;
      SplitJoin(items[1..], sep);
      assert items == [a] + items[1..];
    }
  }

  // ---------------------------------------------------------------------------
  // Well-known text of the crop polygon

  const WktPrefix := "POLYGON(("
  const WktSuffix := "))"

  /** Python's `f'{x} {y}'` for one vertex. */
  function PairText(p: Point, fmt: real -> string): string
  {
    fmt(p.x) + " " + fmt(p.y)
  }

  /** One `"x y"` text per vertex, in vertex order. */
  function Pairs(ring: seq<Point>, fmt: real -> string): seq<string>
  {
    seq(|ring|, i requires 0 <= i < |ring| => PairText(ring[i], fmt))
  }

  /** The polygon text: prefix, the vertex pairs joined by `sep`, suffix. */
  function WktPolygon(ring: seq<Point>, fmt: real -> string, sep: string): string
  {
    WktPrefix + Join(Pairs(ring, fmt), sep) + WktSuffix
  }

  /** The text between the prefix and the suffix of a polygon text. */
  function WktBody(text: string): string
  {
    if |WktPrefix| + |WktSuffix| <= |text| then text[|WktPrefix|..|text| - |WktSuffix|] else ""
  }

  /** Python's `s[:-k]` (note that `s[:-0]` is empty). */
  function DropLast(s: string, k: nat): string
  {
    if 0 < k <= |s| then s[..|s| - k] else ""
  }

  /**
   * The loop shared by the crop-polygon builders: start from `POLYGON((`,
   * append `"x y" + sep` per vertex, strip the final `sep`, append `))`.
   * On a non-empty ring this is exactly the joined text, with no trailing
   * separator; on an empty ring the strip eats into the prefix.
   */
  method PolygonText(ring: seq<Point>, fmt: real -> string, sep: string) returns (text: string)
    requires |sep| > 0
    ensures |ring| > 0 ==> text == WktPolygon(ring, fmt, sep)
    ensures |ring| == 0 ==> text == DropLast(WktPrefix, |sep|) + WktSuffix
  {
    ghost var pairs := Pairs(ring, fmt);
    var acc := WktPrefix;
    for i := 0 to |ring|
      invariant acc == WktPrefix + Terminated(pairs[..i], sep)
    {
      assert pairs[..i + 1][..i] == pairs[..i];
      acc := acc + PairText(ring[i], fmt) + sep;
    }
    assert pairs[..|ring|] == pairs;
    if |ring| > 0 {
      TerminatedIsJoinThenSep(pairs, sep);
      assert acc == (WktPrefix + Join(pairs, sep)) + sep;
    }
    text := DropLast(acc, |sep|) + WktSuffix;
  }

  /**
   * A closed ring (first vertex repeated last) gives a closed text: the first
   * and the last pair are the same text.
   */
  lemma ClosedRingText(ring: seq<Point>, fmt: real -> string, sep: string)
    requires |ring| >= 2 && ring[0] == ring[|ring| - 1]
    ensures var t, p := WktPolygon(ring, fmt, sep), PairText(ring[0], fmt);
      && t[..|WktPrefix| + |p|] == WktPrefix + p
      && t[|t| - |p| - |WktSuffix|..] == p + WktSuffix
  {
    var ps := Pairs(ring, fmt);
    var p := PairText(ring[0], fmt);
    JoinFront(ps, sep);
    var j := Join(ps, sep);
    assert j == p + (sep + Join(ps[1..], sep));
    assert j == Join(ps[..|ps| - 1], sep) + sep + p;
    var t := WktPolygon(ring, fmt, sep);
    assert t == WktPrefix + p + (sep + Join(ps[1..], sep)) + WktSuffix;
    assert t == WktPrefix + (Join(ps[..|ps| - 1], sep) + sep) + p + WktSuffix;
  }

  /**
   * When no formatted number holds the separator's first character (and that
   * character is not the space inside a pair), the polygon text decodes back
   * into exactly one pair per vertex, in vertex order.
   */
  lemma WktPolygonDecodes(ring: seq<Point>, fmt: real -> string, sep: string)
    requires |ring| > 0 && |sep| > 0 && sep[0] != ' '
    requires forall v: real :: sep[0] !in fmt(v)
    ensures Split(WktBody(WktPolygon(ring, fmt, sep)), sep) == Pairs(ring, fmt)
  {
    var ps := Pairs(ring, fmt);
    forall i | 0 <= i < |ps| ensures sep[0] !in ps[i] {
      assert ps[i] == fmt(ring[i].x) + " " + fmt(ring[i].y);
      assert sep[0] !in fmt(ring[i].x) && sep[0] !in fmt(ring[i].y);
    }
    var t := WktPolygon(ring, fmt, sep);
    assert WktBody(t) == Join(ps, sep);
    SplitJoin(ps, sep);
  }

  // ---------------------------------------------------------------------------
  // Bounds text

  /** The reader's query-bounds text `([minx<sep>maxx],[miny<sep>maxy])`. */
  function BoundsText(b: Box, fmt: real -> string, sep: string): string
  {
    "([" + fmt(b.minX) + sep + fmt(b.maxX) + "],[" + fmt(b.minY) + sep + fmt(b.maxY) + "])"
  }

  /** Python's text of a list of already formatted numbers: `"[" + ", ".join(items) + "]"`. */
  function ListRepr(items: seq<string>): string
  {
    "[" + Join(items, ", ") + "]"
  }

  /**
   * `f"({[minx, maxx]},{[miny, maxy]})"`, two list texts inside parentheses,
   * is the bounds text with `", "` between the two numbers of each axis.
   */
  lemma ListReprBounds(b: Box, fmt: real -> string)
    ensures "(" + ListRepr([fmt(b.minX), fmt(b.maxX)]) + "," + ListRepr([fmt(b.minY), fmt(b.maxY)]) + ")"
         == BoundsText(b, fmt, ", ")
  {
    var xs, ys := [fmt(b.minX), fmt(b.maxX)], [fmt(b.minY), fmt(b.maxY)];
    assert xs[..1] == [fmt(b.minX)];
    assert ys[..1] == [fmt(b.minY)];
    assert Join(xs, ", ") == fmt(b.minX) + ", " + fmt(b.maxX);
    assert Join(ys, ", ") == fmt(b.minY) + ", " + fmt(b.maxY);
  }
}
