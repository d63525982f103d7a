/** The layout geometry of the renderer: the mat size, the rows of the grid, the extra
    side padding a score track asks for, and the rectangle of every zone. */
module Geometry {
  import opened Strings
  import opened Model
  import Presets

  datatype Size = Size(width: real, height: real)

  /** `getMatSize(config)`: the canvas size, 2450 by 1450 for each missing dimension. */
  function GetMatSize(config: Option<Config>): (s: Size)
    ensures config.Some? && config.value.canvas.Some? && config.value.canvas.value.width.Some? ==>
              s.width == config.value.canvas.value.width.value
    ensures config.Some? && config.value.canvas.Some? && config.value.canvas.value.height.Some? ==>
              s.height == config.value.canvas.value.height.value
    ensures config.None? || config.value.canvas.None? || config.value.canvas.value.width.None? ==>
              s.width == Presets.MatW
    ensures config.None? || config.value.canvas.None? || config.value.canvas.value.height.None? ==>
              s.height == Presets.MatH
  {
    var canvas := if config.Some? then config.value.canvas else None;
    Size(if canvas.Some? then canvas.value.width.GetOr(Presets.MatW) else Presets.MatW,
         if canvas.Some? then canvas.value.height.GetOr(Presets.MatH) else Presets.MatH)
  }

  /** The tracks a layout draws: its `scoreTracks` when there are any, else its single
      `scoreTrack`, else none. */
  function TracksOf(c: Config): (ts: seq<ScoreTrack>)
    ensures c.scoreTracks != [] ==> ts == c.scoreTracks
    ensures c.scoreTracks == [] && c.scoreTrack.Some? ==> ts == [c.scoreTrack.value]
    ensures c.scoreTracks == [] && c.scoreTrack.None? ==> ts == []
  {
    if c.scoreTracks != [] then c.scoreTracks
    else if c.scoreTrack.Some? then [c.scoreTrack.value]
    else []
  }

  // ---------------------------------------------------------------- rows

  /** The top margin of the grid; the same margin is left at the bottom. */
  const AreaY: real := 30.0

  function Sum(s: seq<real>): real
  {
    if s == [] then 0.0 else Sum(s[..|s| - 1]) + s[|s| - 1]
  }

  lemma SumSnoc(s: seq<real>, v: real)
    ensures Sum(s + [v]) == Sum(s) + v
  {
    assert (s + [v])[..|s|] == s;
  }

  /** `n` copies of `v` add up to `n * v`. */
  lemma {:induction false} SumConstant(t: seq<real>, v: real)
    requires forall i :: 0 <= i < |t| ==> t[i] == v
    ensures Sum(t) == |t| as real * v
    decreases |t|
  {
    if t != [] {
      SumConstant(t[..|t| - 1], v);
    }
  }

  /** The computed grid rows: where each row starts and how tall it is. */
  datatype Rows = Rows(starts: seq<real>, heights: seq<real>)

  /** The running sums behind `rowYStarts`: row `i` starts where row `i - 1` ends. */
  method RowStarts(heights: seq<real>, y0: real) returns (starts: seq<real>)
    ensures |starts| == |heights|
    ensures forall i :: 0 <= i < |heights| ==> starts[i] == y0 + Sum(heights[..i])
  {
    starts := [];
    var y := y0;
    for i := 0 to |heights|
      invariant |starts| == i
      invariant y == y0 + Sum(heights[..i])
      invariant forall k :: 0 <= k < i ==> starts[k] == y0 + Sum(heights[..k])
    {
      starts := starts + [y];
      assert heights[..i + 1] == heights[..i] + [heights[i]];
      SumSnoc(heights[..i], heights[i]);
      y := y + heights[i];
    }
  }

  /** Whether the weights in `rowHeights` apply: they do when there is one per row. */
  predicate Weighted(gridRows: int, rowHeights: Option<seq<real>>) {
    rowHeights.Some? && |rowHeights.value| == gridRows
  }

  /** The row heights: weights scaled to fill `matH - 60`, or equal rows. `None` stands
      for the heights that are not numbers, which is what a list of weights that adds up
      to 0 gives. */
  function RowHeights(matH: real, gridRows: int, rowHeights: Option<seq<real>>): (r: Option<seq<real>>)
    ensures r.None? <==> Weighted(gridRows, rowHeights) && gridRows > 0 && Sum(rowHeights.value) == 0.0
    ensures r.Some? ==> |r.value| == (if gridRows > 0 then gridRows else 0)
    ensures r.Some? && Weighted(gridRows, rowHeights) ==>
              forall i :: 0 <= i < gridRows ==>
                r.value[i] == rowHeights.value[i] / Sum(rowHeights.value) * (matH - 60.0)
    ensures r.Some? && !Weighted(gridRows, rowHeights) ==>
              forall i :: 0 <= i < |r.value| ==> r.value[i] == (matH - 60.0) / gridRows as real
  {
    var areaH := matH - 60.0;
    if Weighted(gridRows, rowHeights) then
      var ws := rowHeights.value;
      var total := Sum(ws);
      if ws == [] then Some([])
      else if total == 0.0 then None
      else Some(seq(|ws|, i requires 0 <= i < |ws| => ws[i] / total * areaH))
    else if gridRows <= 0 then Some([])
    else Some(seq(gridRows, i => areaH / gridRows as real))
  }

  /** The rows fill the grid area exactly: their heights add up to `matH - 60`. */
  lemma RowHeightsFillArea(matH: real, gridRows: int, rowHeights: Option<seq<real>>)
    requires gridRows > 0
    requires RowHeights(matH, gridRows, rowHeights).Some?
    ensures Sum(RowHeights(matH, gridRows, rowHeights).value) == matH - 60.0
  {
    var hs := RowHeights(matH, gridRows, rowHeights).value;
    if Weighted(gridRows, rowHeights) {
      var ws := rowHeights.value;
      SumProportional(ws, hs, Sum(ws), matH - 60.0);
      Cancel(Sum(ws), matH - 60.0);
    } else {
      EqualRowsFill(hs, gridRows, matH - 60.0);
    }
  }

  lemma EqualRowsFill(hs: seq<real>, n: int, areaH: real)
    requires n > 0 && |hs| == n
    requires forall i :: 0 <= i < |hs| ==> hs[i] == areaH / n as real
    ensures Sum(hs) == areaH
  {
    var c := areaH / n as real;
    SumConstant(hs, c);
    ScaleBack(n as real, areaH, c);
  }

  lemma Cancel(total: real, a: real)
    requires total != 0.0
    ensures total / total * a == a
  {
  }

  /** Shares `w / total * a` of each weight add up to the share of the weights' sum. */
  lemma {:induction false} SumProportional(ws: seq<real>, hs: seq<real>, total: real, a: real)
    requires total != 0.0 && |hs| == |ws|
    requires forall i :: 0 <= i < |ws| ==> hs[i] == ws[i] / total * a
    ensures Sum(hs) == Sum(ws) / total * a
    decreases |ws|
  {
    if ws != [] {
      var n := |ws|;
      SumProportional(ws[..n - 1], hs[..n - 1], total, a);
      AddShares(Sum(ws[..n - 1]), ws[n - 1], total, a);
    }
  }

  lemma AddShares(s: real, w: real, total: real, a: real)
    requires total != 0.0
    ensures (s + w) / total * a == s / total * a + w / total * a
  {
  }

  lemma ScaleBack(d: real, a: real, c: real)
    requires d != 0.0 && c == a / d
    ensures d * c == a
  {
  }

  /** The row layout of `drawLayout`. */
  method DistributeRows(matH: real, gridRows: int, rowHeights: Option<seq<real>>) returns (rows: Option<Rows>)
    ensures rows.None? <==> RowHeights(matH, gridRows, rowHeights).None?
    ensures rows.Some? ==>
      && rows.value.heights == RowHeights(matH, gridRows, rowHeights).value
      && |rows.value.starts| == |rows.value.heights|
      && forall i :: 0 <= i < |rows.value.heights| ==>
           rows.value.starts[i] == AreaY + Sum(rows.value.heights[..i])
  {
    var heights := RowHeights(matH, gridRows, rowHeights);
    if heights.None? {
      return None;
    }
    var starts := RowStarts(heights.value, AreaY);
    rows := Some(Rows(starts, heights.value));
  }

  /** Consecutive rows touch, and the last one ends `30` above the bottom of the mat. */
  lemma RowsAreContiguous(matH: real, gridRows: int, rowHeights: Option<seq<real>>, starts: seq<real>)
    requires RowHeights(matH, gridRows, rowHeights).Some?
    requires var hs := RowHeights(matH, gridRows, rowHeights).value;
      |starts| == |hs| && forall i :: 0 <= i < |hs| ==> starts[i] == AreaY + Sum(hs[..i])
    ensures var hs := RowHeights(matH, gridRows, rowHeights).value;
      forall i :: 0 <= i < |hs| - 1 ==> starts[i + 1] == starts[i] + hs[i]
    ensures var hs := RowHeights(matH, gridRows, rowHeights).value;
      hs != [] ==> starts[|hs| - 1] + hs[|hs| - 1] == matH - AreaY
  {
    var hs := RowHeights(matH, gridRows, rowHeights).value;
    RunningSumsTouch(starts, hs);
    if hs != [] {
      RowHeightsFillArea(matH, gridRows, rowHeights);
      LastRunningSum(starts, hs);
    }
  }

  lemma RunningSumsTouch(starts: seq<real>, hs: seq<real>)
    requires |starts| == |hs| && forall i :: 0 <= i < |hs| ==> starts[i] == AreaY + Sum(hs[..i])
    ensures forall i :: 0 <= i < |hs| - 1 ==> starts[i + 1] == starts[i] + hs[i]
  {
    forall i | 0 <= i < |hs| - 1
      ensures starts[i + 1] == starts[i] + hs[i]
    {
      assert hs[..i + 1] == hs[..i] + [hs[i]];
      SumSnoc(hs[..i], hs[i]);
    }
  }

  lemma LastRunningSum(starts: seq<real>, hs: seq<real>)
    requires hs != []
    requires |starts| == |hs| && forall i :: 0 <= i < |hs| ==> starts[i] == AreaY + Sum(hs[..i])
    ensures starts[|hs| - 1] + hs[|hs| - 1] == AreaY + Sum(hs)
  {
    var n := |hs|;
    assert starts[n - 1] == AreaY + Sum(hs[..n - 1]);
    assert hs[..n - 1] + [hs[n - 1]] == hs;
    SumSnoc(hs[..n - 1], hs[n - 1]);
  }

  // ---------------------------------------------------------------- side padding

  /** The padding at either side of the grid, and the padding on a side that a score
      track runs along (`30 + SIDE_SCORE_PAD`). */
  const BasePad: real := 30.0
  const TrackPad: real := 105.0

  datatype Side = Left | Right

  /** `sideForTrack(track)`: the side a `left`/`right` track runs along, swapped on a
      mirrored mat; `None` for every other position. */
  function SideForTrack(t: ScoreTrack, mirrored: bool): (s: Option<Side>)
    ensures s.None? <==> t.position != "left" && t.position != "right"
    ensures t.position == "left" ==> s == Some(if mirrored then Right else Left)
    ensures t.position == "right" ==> s == Some(if mirrored then Left else Right)
  {
    if t.position != "left" && t.position != "right" then None
    else if !mirrored then (if t.position == "left" then Some(Left) else Some(Right))
    else if t.position == "left" then Some(Right) else Some(Left)
  }

  /** `overlapsScoreTrackY(track, y0, y1)`: the vertical band of the track, between
      `yStart` and `yEnd` (0.08 and 0.92 by default) of the mat height in either order,
      overlaps the open interval from `y0` to `y1`. */
  predicate OverlapsTrackY(t: ScoreTrack, matH: real, y0: real, y1: real) {
    var tStart := t.yStart.GetOr(0.08) * matH;
    var tEnd := t.yEnd.GetOr(0.92) * matH;
    var a0 := if tStart < tEnd then tStart else tEnd;
    var a1 := if tStart < tEnd then tEnd else tStart;
    y0 < a1 && y1 > a0
  }

  /** A track widens the padding on `side` of a zone spanning `y0..y1`. */
  predicate Widens(t: ScoreTrack, side: Side, mirrored: bool, matH: real, y0: real, y1: real) {
    OverlapsTrackY(t, matH, y0, y1) && SideForTrack(t, mirrored) == Some(side)
  }

  /** The padding the renderer settles on for one side of a zone. */
  function SidePad(tracks: seq<ScoreTrack>, side: Side, mirrored: bool, matH: real, y0: real, y1: real): (p: real)
    ensures p == BasePad || p == TrackPad
  {
    if tracks == [] then BasePad
    else if Widens(tracks[|tracks| - 1], side, mirrored, matH, y0, y1) then TrackPad
    else SidePad(tracks[..|tracks| - 1], side, mirrored, matH, y0, y1)
  }

  /** A side gets the wider padding exactly when some track widens it. */
  lemma {:induction false} SidePadWidens(tracks: seq<ScoreTrack>, side: Side, mirrored: bool,
                                         matH: real, y0: real, y1: real)
    ensures SidePad(tracks, side, mirrored, matH, y0, y1) == TrackPad
            <==> exists k :: 0 <= k < |tracks| && Widens(tracks[k], side, mirrored, matH, y0, y1)
    decreases |tracks|
  {
    if tracks != [] {
      var init := tracks[..|tracks| - 1];
      SidePadWidens(init, side, mirrored, matH, y0, y1);
      assert forall k :: 0 <= k < |init| ==> init[k] == tracks[k];
      if exists k :: 0 <= k < |tracks| && Widens(tracks[k], side, mirrored, matH, y0, y1) {
        var k :| 0 <= k < |tracks| && Widens(tracks[k], side, mirrored, matH, y0, y1);
        if k < |init| {
          assert Widens(init[k], side, mirrored, matH, y0, y1);
        }
      }
    }
  }

  /** The `tracks.forEach` that sets `padL` and `padR` for one zone. */
  method ComputePads(tracks: seq<ScoreTrack>, mirrored: bool, matH: real, y0: real, y1: real)
    returns (padL: real, padR: real)
    ensures padL == SidePad(tracks, Left, mirrored, matH, y0, y1)
    ensures padR == SidePad(tracks, Right, mirrored, matH, y0, y1)
  {
    padL, padR := BasePad, BasePad;
    for i := 0 to |tracks|
      invariant padL == SidePad(tracks[..i], Left, mirrored, matH, y0, y1)
      invariant padR == SidePad(tracks[..i], Right, mirrored, matH, y0, y1)
    {
      assert tracks[..i + 1][..i] == tracks[..i];
      var track := tracks[i];
      if !OverlapsTrackY(track, matH, y0, y1) {
        continue;
      }
      var side := SideForTrack(track, mirrored);
      if side == Some(Left) { padL := TrackPad; }
      if side == Some(Right) { padR := TrackPad; }
    }
    assert tracks[..|tracks|] == tracks;
  }

  /** On a mirrored mat the padding of each side is the one the other side gets on a
      plain mat. */
  lemma {:induction false} MirroredPadsSwap(tracks: seq<ScoreTrack>, matH: real, y0: real, y1: real)
    ensures SidePad(tracks, Left, true, matH, y0, y1) == SidePad(tracks, Right, false, matH, y0, y1)
    ensures SidePad(tracks, Right, true, matH, y0, y1) == SidePad(tracks, Left, false, matH, y0, y1)
    decreases |tracks|
  {
    if tracks != [] {
      MirroredPadsSwap(tracks[..|tracks| - 1], matH, y0, y1);
    }
  }

  // ---------------------------------------------------------------- zones

  datatype Rect = Rect(x: real, y: real, w: real, h: real)

  /** The end index `Array.prototype.slice` uses for the argument `e` on a list of `n`. */
  function SliceEnd(e: int, n: nat): (r: nat)
    ensures r <= n
    ensures 0 <= e <= n ==> r == e
  {
    if e < 0 then (if n + e < 0 then 0 else n + e) else if e > n then n else e
  }

  /** The top and height of a zone: it starts `gap / 2` below its first row and spans
      the rows `rowStart .. rowStart + rowSpan - 1` less `gap`. `None` for a start row
      with no row, where the source computes with `undefined`. */
  function ZoneYBand(rows: Rows, rowStart: int, rowSpan: int, gap: real): (band: Option<(real, real)>)
    requires |rows.starts| == |rows.heights|
    ensures band.None? <==> !(1 <= rowStart <= |rows.starts|)
    ensures band.Some? ==> band.value.0 == rows.starts[rowStart - 1] + gap / 2.0
    ensures band.Some? && rowSpan >= 1 && rowStart - 1 + rowSpan <= |rows.heights| ==>
              band.value.1 == Sum(rows.heights[rowStart - 1 .. rowStart - 1 + rowSpan]) - gap
    // a span past the last row stops there, as `slice` does
    ensures band.Some? && rowStart - 1 + rowSpan > |rows.heights| ==>
              band.value.1 == Sum(rows.heights[rowStart - 1 ..]) - gap
    // an empty span is `-gap` tall
    ensures band.Some? && rowSpan <= 0 && rowStart - 1 + rowSpan >= 0 ==> band.value.1 == -gap
    // a negative end counts back from the last row, as `slice` does
    ensures band.Some? && rowStart - 1 + rowSpan < 0 ==>
              var e := |rows.heights| + (rowStart - 1 + rowSpan);
              band.value.1 == (if e > rowStart - 1 then Sum(rows.heights[rowStart - 1 .. e]) else 0.0) - gap
  {
    var r0 := rowStart - 1;
    if r0 < 0 || r0 >= |rows.starts| then None
    else
      var e := SliceEnd(r0 + rowSpan, |rows.heights|);
      var slice := if e <= r0 then [] else rows.heights[r0..e];
      assert e == |rows.heights| ==> slice == rows.heights[r0..];
      Some((rows.starts[r0] + gap / 2.0, Sum(slice) - gap))
  }

  /** The horizontal placement of a zone between the side paddings; `None` for a grid
      without columns, where the source divides by zero. */
  function ZoneXBand(matW: real, gridCols: int, colStart: int, colSpan: int, padL: real, padR: real, gap: real)
    : (band: Option<(real, real)>)
    ensures band.None? <==> gridCols == 0
    ensures band.Some? ==>
      var cellW := (matW - padL - padR) / gridCols as real;
      band.value.0 == padL + (colStart - 1) as real * cellW + gap / 2.0 &&
      band.value.1 == colSpan as real * cellW - gap
  {
    if gridCols == 0 then None
    else
      var cellW := (matW - padL - padR) / gridCols as real;
      Some((padL + (colStart - 1) as real * cellW + gap / 2.0, colSpan as real * cellW - gap))
  }

  /** Inside the grid, a zone stays between the paddings, `gap / 2` clear of each. */
  lemma ZoneStaysInsidePadding(matW: real, gridCols: int, colStart: int, colSpan: int,
                               padL: real, padR: real, gap: real)
    requires 1 <= colStart && 1 <= colSpan && colStart + colSpan - 1 <= gridCols
    requires padL + padR <= matW
    ensures var b := ZoneXBand(matW, gridCols, colStart, colSpan, padL, padR, gap).value;
      padL + gap / 2.0 <= b.0 && b.0 + b.1 <= matW - padR - gap / 2.0
  {
    var w := matW - padL - padR;
    var cellW := w / gridCols as real;
    ColumnsFit(w, gridCols as real, (colStart - 1) as real, colSpan as real, cellW);
  }

  /** Columns `a .. a + k - 1` of `n` columns of width `w / n` lie within `[0, w]`. */
  lemma ColumnsFit(w: real, n: real, a: real, k: real, cellW: real)
    requires n > 0.0 && w >= 0.0 && a >= 0.0 && k >= 0.0 && a + k <= n && cellW == w / n
    ensures a * cellW >= 0.0 && a * cellW + k * cellW <= w
  {
    assert cellW >= 0.0;
    MulMonoGeometry(a + k, n, cellW);
    ScaleBack(n, w, cellW);
  }

  lemma MulMonoGeometry(x: real, y: real, c: real)
    requires x <= y && c >= 0.0
    ensures x * c <= y * c
  {
  }

  /** Turning a zone's grid position by 180 degrees while swapping the side paddings
      mirrors its rectangle about the vertical centre line of the mat. */
  lemma ZoneXBandMirrors(matW: real, gridCols: int, colStart: int, colSpan: int,
                         padL: real, padR: real, gap: real)
    requires gridCols != 0
    ensures var b := ZoneXBand(matW, gridCols, colStart, colSpan, padL, padR, gap).value;
      var m := ZoneXBand(matW, gridCols, gridCols - colStart - colSpan + 2, colSpan, padR, padL, gap).value;
      m.0 == matW - (b.0 + b.1) && m.1 == b.1
  {
    var n := gridCols as real;
    var cellW := (matW - padL - padR) / n;
    var cellW' := (matW - padR - padL) / n;
    assert cellW' == cellW;
    assert n * cellW == matW - padL - padR;
    var c := colStart as real;
    var s := colSpan as real;
    assert (gridCols - colStart - colSpan + 2 - 1) as real * cellW == n * cellW - (c - 1.0) * cellW - s * cellW;
  }

  /** The rectangle `drawLayout` gives a zone, or `None` where the source computes with
      values that are not numbers. */
  function ZoneRectOf(zone: Zone, rows: Rows, tracks: seq<ScoreTrack>, size: Size, gridCols: int,
                      mirrored: bool, gap: real): Option<Rect>
    requires |rows.starts| == |rows.heights|
  {
    var yb := ZoneYBand(rows, zone.rowStart, zone.rowSpan, gap);
    if yb.None? || gridCols == 0 then None
    else
      var y0 := yb.value.0;
      var y1 := yb.value.0 + yb.value.1;
      var padL := SidePad(tracks, Left, mirrored, size.height, y0, y1);
      var padR := SidePad(tracks, Right, mirrored, size.height, y0, y1);
      var xb := ZoneXBand(size.width, gridCols, zone.colStart, zone.colSpan, padL, padR, gap).value;
      Some(Rect(xb.0, yb.value.0, xb.1, yb.value.1))
  }

  /** The body of the `zones.forEach` of `drawLayout` for one zone, with the drawing
      left out. */
  method ZoneRect(zone: Zone, rows: Rows, tracks: seq<ScoreTrack>, size: Size, gridCols: int,
                  mirrored: bool, gap: real) returns (rect: Option<Rect>)
    requires |rows.starts| == |rows.heights|
    ensures rect == ZoneRectOf(zone, rows, tracks, size, gridCols, mirrored, gap)
  {
    var yb := ZoneYBand(rows, zone.rowStart, zone.rowSpan, gap);
    if yb.None? || gridCols == 0 {
      return None;
    }
    var zy, zh := yb.value.0, yb.value.1;
    var padL, padR := ComputePads(tracks, mirrored, size.height, zy, zy + zh);
    var xb := ZoneXBand(size.width, gridCols, zone.colStart, zone.colSpan, padL, padR, gap).value;
    rect := Some(Rect(xb.0, zy, xb.1, zh));
  }

  /** Every zone inside the grid of a layout whose rows are numbers gets a rectangle,
      and that rectangle lies between the side paddings the tracks ask for. */
  lemma ZoneRectInsidePadding(zone: Zone, rows: Rows, tracks: seq<ScoreTrack>, size: Size, gridCols: int,
                              mirrored: bool, gap: real)
    requires |rows.starts| == |rows.heights|
    requires 1 <= zone.colStart && 1 <= zone.colSpan && zone.colStart + zone.colSpan - 1 <= gridCols
    requires 1 <= zone.rowStart <= |rows.starts|
    requires size.width >= 2.0 * TrackPad
    ensures var r := ZoneRectOf(zone, rows, tracks, size, gridCols, mirrored, gap);
      r.Some? && BasePad + gap / 2.0 <= r.value.x && r.value.x + r.value.w <= size.width - BasePad - gap / 2.0
  {
    var yb := ZoneYBand(rows, zone.rowStart, zone.rowSpan, gap).value;
    var padL := SidePad(tracks, Left, mirrored, size.height, yb.0, yb.0 + yb.1);
    var padR := SidePad(tracks, Right, mirrored, size.height, yb.0, yb.0 + yb.1);
    ZoneStaysInsidePadding(size.width, gridCols, zone.colStart, zone.colSpan, padL, padR, gap);
  }

  /** A zone inside the grid of rows laid out by `DistributeRows`, with weights that are not
      negative, lies inside the grid area vertically, `gap / 2` clear of its top and bottom
      margins (the vertical counterpart of `ZoneRectInsidePadding`). */
  lemma ZoneRectInsideRows(zone: Zone, rows: Rows, tracks: seq<ScoreTrack>, size: Size,
                           gridRows: int, rowHeights: Option<seq<real>>, gridCols: int,
                           mirrored: bool, gap: real)
    requires size.height >= 2.0 * AreaY
    requires rowHeights.Some? ==>
               forall i :: 0 <= i < |rowHeights.value| ==> rowHeights.value[i] >= 0.0
    requires RowHeights(size.height, gridRows, rowHeights).Some?
    requires rows.heights == RowHeights(size.height, gridRows, rowHeights).value
    requires |rows.starts| == |rows.heights|
    requires forall i :: 0 <= i < |rows.heights| ==> rows.starts[i] == AreaY + Sum(rows.heights[..i])
    requires 1 <= zone.rowStart && 1 <= zone.rowSpan && zone.rowStart - 1 + zone.rowSpan <= |rows.heights|
    ensures var r := ZoneRectOf(zone, rows, tracks, size, gridCols, mirrored, gap);
      r.Some? ==>
        && AreaY + gap / 2.0 <= r.value.y
        && r.value.y + r.value.h <= size.height - AreaY - gap / 2.0
  {
    RowsNotNegative(size.height, gridRows, rowHeights);
    assert gridRows > 0;
    RowHeightsFillArea(size.height, gridRows, rowHeights);
    ZoneYBandInsideArea(rows, zone.rowStart, zone.rowSpan, gap, size.height - 2.0 * AreaY);
  }

  /** With both side paddings at most `TrackPad` (as `SidePad` guarantees), the columns
      `colStart .. colStart + colSpan - 1` give a band at least `colSpan` cells wide with
      the widest paddings, less `gap`: it has a positive width whenever `gap` is less than
      that. */
  lemma XBandHasWidth(matW: real, gridCols: int, colStart: int, colSpan: int,
                      padL: real, padR: real, gap: real)
    requires gridCols >= 1 && colSpan >= 1
    requires padL <= TrackPad && padR <= TrackPad
    ensures ZoneXBand(matW, gridCols, colStart, colSpan, padL, padR, gap).value.1
            >= colSpan as real * (matW - 2.0 * TrackPad) / gridCols as real - gap
  {
    var n := gridCols as real;
    var k := colSpan as real;
    WidestPadsNarrowCells(matW, n, k, padL, padR);
    assert ZoneXBand(matW, gridCols, colStart, colSpan, padL, padR, gap).value.1
           == k * ((matW - padL - padR) / n) - gap;
  }

  /** With equal rows, a zone spanning `rowSpan` rows is `rowSpan` row heights tall, less
      `gap`: it has a positive height whenever `gap` is less than that. */
  lemma EqualRowsBandHeight(matH: real, gridRows: int, rowHeights: Option<seq<real>>, rows: Rows,
                            rowStart: int, rowSpan: int, gap: real)
    requires !Weighted(gridRows, rowHeights)
    requires rows.heights == RowHeights(matH, gridRows, rowHeights).value
    requires |rows.starts| == |rows.heights|
    requires 1 <= rowStart && 1 <= rowSpan && rowStart - 1 + rowSpan <= |rows.heights|
    ensures ZoneYBand(rows, rowStart, rowSpan, gap).value.1
            == rowSpan as real * ((matH - 2.0 * AreaY) / gridRows as real) - gap
  {
    var slice := rows.heights[rowStart - 1 .. rowStart - 1 + rowSpan];
    assert forall i :: 0 <= i < |slice| ==> slice[i] == rows.heights[rowStart - 1 + i];
    SumConstant(slice, (matH - 2.0 * AreaY) / gridRows as real);
  }

  /** With non-negative weights on a mat at least 60 px high, no row height is negative. */
  lemma RowsNotNegative(matH: real, gridRows: int, rowHeights: Option<seq<real>>)
    requires matH >= 2.0 * AreaY
    requires rowHeights.Some? ==>
               forall i :: 0 <= i < |rowHeights.value| ==> rowHeights.value[i] >= 0.0
    requires RowHeights(matH, gridRows, rowHeights).Some?
    ensures var hs := RowHeights(matH, gridRows, rowHeights).value;
      forall i :: 0 <= i < |hs| ==> hs[i] >= 0.0
  {
    if Weighted(gridRows, rowHeights) && gridRows > 0 {
      SumNotNegative(rowHeights.value);
    }
  }

  /** The rows `rowStart .. rowStart + rowSpan - 1`, laid end to end from `AreaY` with no
      negative height and a total of `areaH`, lie within `[AreaY, AreaY + areaH]`. */
  lemma ZoneYBandInsideArea(rows: Rows, rowStart: int, rowSpan: int, gap: real, areaH: real)
    requires |rows.starts| == |rows.heights|
    requires forall i :: 0 <= i < |rows.heights| ==> rows.starts[i] == AreaY + Sum(rows.heights[..i])
    requires forall i :: 0 <= i < |rows.heights| ==> rows.heights[i] >= 0.0
    requires rows.heights != [] ==> Sum(rows.heights) == areaH
    requires 1 <= rowStart && 1 <= rowSpan && rowStart - 1 + rowSpan <= |rows.heights|
    ensures var b := ZoneYBand(rows, rowStart, rowSpan, gap).value;
      AreaY + gap / 2.0 <= b.0 && b.0 + b.1 <= AreaY + areaH - gap / 2.0
  {
    var hs := rows.heights;
    var a := rowStart - 1;
    var e := a + rowSpan;
    var b := ZoneYBand(rows, rowStart, rowSpan, gap).value;
    assert b.0 == AreaY + Sum(hs[..a]) + gap / 2.0;
    assert b.1 == Sum(hs[a..e]) - gap;
    SumNotNegativeSlice(hs, 0, a);
    SumNotNegativeSlice(hs, e, |hs|);
    SumSplit(hs, a, e);
    SumSplit(hs, e, |hs|);
    assert hs[..|hs|] == hs;
    assert hs[0..a] == hs[..a];
  }

  /** Heights that are not negative add up to a sum that is not negative over any slice. */
  lemma SumNotNegativeSlice(hs: seq<real>, i: nat, j: nat)
    requires i <= j <= |hs|
    requires forall k :: 0 <= k < |hs| ==> hs[k] >= 0.0
    ensures Sum(hs[i..j]) >= 0.0
  {
    var t := hs[i..j];
    assert forall k :: 0 <= k < |t| ==> t[k] == hs[i + k];
    SumNotNegative(t);
  }

  /** Each side padding is at most `TrackPad`, so a span of `k` of `n` columns is at least
      `k * (w - 2 * TrackPad) / n` wide. */
  lemma WidestPadsNarrowCells(w: real, n: real, k: real, padL: real, padR: real)
    requires n > 0.0 && k >= 0.0
    requires padL <= TrackPad && padR <= TrackPad
    ensures k * ((w - padL - padR) / n) >= k * (w - 2.0 * TrackPad) / n
  {
    var wide := (w - padL - padR) / n;
    var narrow := (w - 2.0 * TrackPad) / n;
    assert wide - narrow == (2.0 * TrackPad - padL - padR) / n;
    MulMonoGeometry(narrow, wide, k);
    assert k * (w - 2.0 * TrackPad) / n == k * narrow;
  }

  lemma {:induction false} SumNotNegative(s: seq<real>)
    requires forall i :: 0 <= i < |s| ==> s[i] >= 0.0
    ensures Sum(s) >= 0.0
    decreases |s|
  {
    if s != [] {
      var t := s[..|s| - 1];
      assert forall i :: 0 <= i < |t| ==> t[i] == s[i];
      SumNotNegative(t);
    }
  }

  /** Splitting a prefix in two splits its sum. */
  lemma {:induction false} SumSplit(s: seq<real>, a: nat, b: nat)
    requires a <= b <= |s|
    ensures Sum(s[..b]) == Sum(s[..a]) + Sum(s[a..b])
    decreases b - a
  {
    if b > a {
      SumSplit(s, a, b - 1);
      var x := s[a..b];
      assert x[..|x| - 1] == s[a..b - 1];
      var y := s[..b];
      assert y[..|y| - 1] == s[..b - 1];
    } else {
      assert s[a..b] == [];
    }
  }

  /** The `zones.forEach` of `drawLayout`, recording each zone's rectangle instead of
      drawing it. The layout must have zones: the source calls `forEach` on them. */
  method LayoutZones(config: Config, size: Size, mirrored: bool, gap: real)
    returns (rects: seq<Option<Rect>>)
    requires config.zones.Some?
    ensures var zones := config.zones.value;
      var hs := RowHeights(size.height, config.gridRows, config.rowHeights);
      && |rects| == |zones|
      && (hs.None? ==> forall k :: 0 <= k < |zones| ==> rects[k].None?)
      && (hs.Some? ==>
            var rows := Rows(seq(|hs.value|, i requires 0 <= i < |hs.value| => AreaY + Sum(hs.value[..i])), hs.value);
            forall k :: 0 <= k < |zones| ==>
              rects[k] == ZoneRectOf(zones[k], rows, TracksOf(config), size, config.gridCols, mirrored, gap))
  {
    var zones := config.zones.value;
    var tracks := TracksOf(config);
    var rows := DistributeRows(size.height, config.gridRows, config.rowHeights);
    rects := [];
    if rows.None? {
      rects := seq(|zones|, k => None);
      return;
    }
    ghost var hs := RowHeights(size.height, config.gridRows, config.rowHeights).value;
    assert rows.value == Rows(seq(|hs|, i requires 0 <= i < |hs| => AreaY + Sum(hs[..i])), hs);
    ghost var want := seq(|zones|, j requires 0 <= j < |zones| =>
      ZoneRectOf(zones[j], rows.value, tracks, size, config.gridCols, mirrored, gap));
    for k := 0 to |zones|
      invariant rects == want[..k]
    {
      var rect := ZoneRect(zones[k], rows.value, tracks, size, config.gridCols, mirrored, gap);
      PrefixSnoc(rects, want, k, rect);
      rects := rects + [rect];
    }
    assert want[..|zones|] == want;
  }
}
