/** The mirrored two-player synchroniser: zones whose ids start with `p1_` and `p2_`
    form pairs, and an edit of one member of a pair (or of one of the two score tracks)
    is carried over to its partner, field by field. */
module LayoutSync {
  import opened Strings
  import opened Model

  /** `clamp(value, min, max)` = `Math.max(min, Math.min(max, value))` on integers. */
  function Clamp(v: int, lo: int, hi: int): (r: int)
    ensures lo <= r
    ensures lo <= hi ==> r <= hi
    ensures lo <= v <= hi ==> r == v
    ensures r == lo || r == hi || r == v
  {
    var m := if hi < v then hi else v;
    if m < lo then lo else m
  }

  /** The same clamp on fractions and pixels. */
  function ClampReal(v: real, lo: real, hi: real): (r: real)
    ensures lo <= r
    ensures lo <= hi ==> r <= hi
    ensures lo <= v <= hi ==> r == v
    ensures r == lo || r == hi || r == v
  {
    var m := if hi < v then hi else v;
    if m < lo then lo else m
  }

  /** `zones.some((zone) => zone.id.startsWith(prefix))` */
  predicate SomeIdStartsWith(zones: seq<Zone>, prefix: string)
    ensures SomeIdStartsWith(zones, prefix) <==>
              exists i :: 0 <= i < |zones| && StartsWith(zones[i].id, prefix)
  {
    if zones == [] then false
    else StartsWith(zones[0].id, prefix) || SomeIdStartsWith(zones[1..], prefix)
  }

  /** A layout is a mirrored two-player layout when some zone id starts with `p1_`
      and some zone id starts with `p2_`. */
  function IsMirroredTwoPlayer(zones: seq<Zone>): (r: bool)
    ensures r <==> ((exists i :: 0 <= i < |zones| && StartsWith(zones[i].id, "p1_")) &&
                    (exists j :: 0 <= j < |zones| && StartsWith(zones[j].id, "p2_")))
  {
    SomeIdStartsWith(zones, "p1_") && SomeIdStartsWith(zones, "p2_")
  }

  /** The id of a zone's partner: the `p1_`/`p2_` prefix swapped, `None` (the source's
      `null`) for an id with neither prefix. */
  function MirrorZoneId(id: string): (r: Option<string>)
    ensures r.None? <==> !StartsWith(id, "p1_") && !StartsWith(id, "p2_")
  {
    if StartsWith(id, "p1_") then Some("p2_" + id[3..])
    else if StartsWith(id, "p2_") then Some("p1_" + id[3..])
    else None
  }

  /** `p1_X` and `p2_X` are each other's partners, for every suffix `X`. */
  lemma MirrorZoneIdSwapsPrefix(x: string)
    ensures MirrorZoneId("p1_" + x) == Some("p2_" + x)
    ensures MirrorZoneId("p2_" + x) == Some("p1_" + x)
  {
    assert ("p1_" + x)[..3] == "p1_" && ("p1_" + x)[3..] == x;
    assert ("p2_" + x)[..3] == "p2_" && ("p2_" + x)[3..] == x;
  }

  /** Taking the partner twice gives the id back, and no id is its own partner. */
  lemma MirrorZoneIdInvolution(id: string)
    requires MirrorZoneId(id).Some?
    ensures MirrorZoneId(id).value != id
    ensures MirrorZoneId(MirrorZoneId(id).value) == Some(id)
  {
    var m := MirrorZoneId(id).value;
    assert m[..3] != id[..3];
    if StartsWith(id, "p1_") {
      MirrorZoneIdSwapsPrefix(id[3..]);
      assert id == "p1_" + id[3..];
    } else {
      MirrorZoneIdSwapsPrefix(id[3..]);
      assert id == "p2_" + id[3..];
    }
  }

  /** A position lies inside a `cols` by `rows` grid. */
  predicate InGrid(p: GridPos, cols: int, rows: int) {
    1 <= p.colStart && 1 <= p.colSpan && p.colStart + p.colSpan - 1 <= cols &&
    1 <= p.rowStart && 1 <= p.rowSpan && p.rowStart + p.rowSpan - 1 <= rows
  }

  /** The grid position of a zone turned by 180 degrees about the centre of the grid,
      each coordinate clamped into the grid. */
  function MirroredZonePosition(p: GridPos, cols: int, rows: int): (r: GridPos)
    ensures 1 <= r.colStart && 1 <= r.colSpan && 1 <= r.rowStart && 1 <= r.rowSpan
    ensures 1 <= cols ==> r.colStart <= cols && r.colSpan <= cols
    ensures 1 <= rows ==> r.rowStart <= rows && r.rowSpan <= rows
  {
    GridPos(
      Clamp(cols - p.colStart - p.colSpan + 2, 1, cols),
      Clamp(p.colSpan, 1, cols),
      Clamp(rows - p.rowStart - p.rowSpan + 2, 1, rows),
      Clamp(p.rowSpan, 1, rows))
  }

  /** For a zone inside the grid no clamp is active: the start is reflected, the spans
      are kept, and the result lies inside the grid again. */
  lemma MirroredPositionInGrid(p: GridPos, cols: int, rows: int)
    requires InGrid(p, cols, rows)
    ensures MirroredZonePosition(p, cols, rows) ==
            GridPos(cols - p.colStart - p.colSpan + 2, p.colSpan, rows - p.rowStart - p.rowSpan + 2, p.rowSpan)
    ensures InGrid(MirroredZonePosition(p, cols, rows), cols, rows)
  {
  }

  /** Rotating twice by 180 degrees is the identity on positions inside the grid. */
  lemma MirroredPositionInvolution(p: GridPos, cols: int, rows: int)
    requires InGrid(p, cols, rows)
    ensures MirroredZonePosition(MirroredZonePosition(p, cols, rows), cols, rows) == p
  {
    MirroredPositionInGrid(p, cols, rows);
    MirroredPositionInGrid(MirroredZonePosition(p, cols, rows), cols, rows);
  }

  /** A zone edit: the keys present in the patch object. A patch never changes `id`. */
  datatype ZonePatch = ZonePatch(
    name: Option<string>, icon: Option<string>,
    colStart: Option<int>, colSpan: Option<int>, rowStart: Option<int>, rowSpan: Option<int>,
    locked: Option<bool>, upsideDown: Option<bool>,
    text: Option<TextSpec>, textEntries: Option<Option<seq<TextSpec>>>)
  {
    predicate TouchesGeometry() {
      colStart.Some? || colSpan.Some? || rowStart.Some? || rowSpan.Some?
    }
  }

  const EmptyZonePatch := ZonePatch(None, None, None, None, None, None, None, None, None, None)

  /** `{ ...zone, ...patch }` */
  function Merge(z: Zone, p: ZonePatch): (r: Zone)
    ensures r.id == z.id
  {
    Zone(z.id, p.name.GetOr(z.name), p.icon.GetOr(z.icon),
         p.colStart.GetOr(z.colStart), p.colSpan.GetOr(z.colSpan),
         p.rowStart.GetOr(z.rowStart), p.rowSpan.GetOr(z.rowSpan),
         p.locked.GetOr(z.locked), p.upsideDown.GetOr(z.upsideDown),
         p.text.GetOr(z.text), p.textEntries.GetOr(z.textEntries))
  }

  /** `zones.map((zone) => (zone.id === id ? { ...zone, ...patch } : zone))` */
  function PatchWhere(zones: seq<Zone>, id: string, p: ZonePatch): (r: seq<Zone>)
    ensures |r| == |zones|
    ensures forall i :: 0 <= i < |zones| ==> r[i] == if zones[i].id == id then Merge(zones[i], p) else zones[i]
    ensures forall i :: 0 <= i < |zones| ==> r[i].id == zones[i].id
  {
    seq(|zones|, i requires 0 <= i < |zones| => if zones[i].id == id then Merge(zones[i], p) else zones[i])
  }

  /** The index of the zone `zones.find((zone) => zone.id === id)` returns. */
  function FindZone(zones: seq<Zone>, id: string): (k: Option<nat>)
    ensures k.Some? ==> k.value < |zones| && zones[k.value].id == id &&
                        forall j :: 0 <= j < k.value ==> zones[j].id != id
    ensures k.None? ==> forall j :: 0 <= j < |zones| ==> zones[j].id != id
  {
    if zones == [] then None
    else if zones[0].id == id then Some(0)
    else match FindZone(zones[1..], id)
      case None => None
      case Some(k) => Some(k + 1)
  }

  /** The patch the partner receives, from the already patched source zone. */
  function MirroredPatch(src: Zone, patch: ZonePatch, cols: int, rows: int): ZonePatch {
    var m0 := EmptyZonePatch;
    var g := MirroredZonePosition(src.Grid(), cols, rows);
    var m1 := if patch.TouchesGeometry()
              then m0.(colStart := Some(g.colStart), colSpan := Some(g.colSpan),
                       rowStart := Some(g.rowStart), rowSpan := Some(g.rowSpan))
              else m0;
    var m2 := if patch.upsideDown.Some? then m1.(upsideDown := Some(!src.upsideDown)) else m1;
    var m3 := if patch.name.Some? then m2.(name := Some(src.name)) else m2;
    var m4 := if patch.icon.Some? then m3.(icon := Some(src.icon)) else m3;
    if patch.text.Some? then m4.(text := Some(src.text)) else m4
  }

  /** `applyMirroredZonePatch`: patch the source zone, then carry the patch over to
      its partner when the partner exists. */
  function ApplyMirroredZonePatch(zones: seq<Zone>, sourceId: string, patch: ZonePatch,
                                  cols: int, rows: int): seq<Zone>
  {
    var next := PatchWhere(zones, sourceId, patch);
    var mirrorId := MirrorZoneId(sourceId);
    var src := FindZone(next, sourceId);
    if mirrorId.None? || src.None? || FindZone(next, mirrorId.value).None? then next
    else PatchWhere(next, mirrorId.value, MirroredPatch(next[src.value], patch, cols, rows))
  }

  lemma MergeMirroredPatch(z: Zone, src: Zone, patch: ZonePatch, cols: int, rows: int)
    ensures var r := Merge(z, MirroredPatch(src, patch, cols, rows));
      && r.Grid() == (if patch.TouchesGeometry() then MirroredZonePosition(src.Grid(), cols, rows) else z.Grid())
      && r.upsideDown == (if patch.upsideDown.Some? then !src.upsideDown else z.upsideDown)
      && r.name == (if patch.name.Some? then src.name else z.name)
      && r.icon == (if patch.icon.Some? then src.icon else z.icon)
      && r.text == (if patch.text.Some? then src.text else z.text)
      && r.id == z.id && r.locked == z.locked && r.textEntries == z.textEntries
  {
  }

  /** The list keeps its length, order and ids; every zone with the source id gets
      the patch; every zone that is neither the source nor its partner is untouched. */
  lemma ZonePatchFrame(zones: seq<Zone>, sourceId: string, patch: ZonePatch, cols: int, rows: int)
    ensures var r := ApplyMirroredZonePatch(zones, sourceId, patch, cols, rows);
      && |r| == |zones|
      && (forall i :: 0 <= i < |zones| ==> r[i].id == zones[i].id)
      && (forall i :: 0 <= i < |zones| && zones[i].id == sourceId ==> r[i] == Merge(zones[i], patch))
      && (forall i :: 0 <= i < |zones| && zones[i].id != sourceId && MirrorZoneId(sourceId) != Some(zones[i].id)
            ==> r[i] == zones[i])
  {
    var mirrorId := MirrorZoneId(sourceId);
    if mirrorId.Some? {
      MirrorZoneIdInvolution(sourceId);
    }
  }

  /** Without a partner (an id with neither prefix, or no zone with the partner's id)
      only the source zones change. */
  lemma ZonePatchWithoutPartner(zones: seq<Zone>, sourceId: string, patch: ZonePatch, cols: int, rows: int)
    requires MirrorZoneId(sourceId).None? ||
             forall i :: 0 <= i < |zones| ==> zones[i].id != MirrorZoneId(sourceId).value
    ensures ApplyMirroredZonePatch(zones, sourceId, patch, cols, rows) == PatchWhere(zones, sourceId, patch)
  {
    var next := PatchWhere(zones, sourceId, patch);
    var mirrorId := MirrorZoneId(sourceId);
    if mirrorId.Some? {
      MirrorZoneIdInvolution(sourceId);
      assert forall i :: 0 <= i < |next| ==> next[i].id == zones[i].id;
      assert FindZone(next, mirrorId.value).None?;
    }
  }

  /** With a partner present, the partner's fields follow the patched source, one
      rule per key: geometry is the 180-degree rotation of the source's new geometry,
      `upsideDown` is the negation of the source's new value, `name`, `icon` and `text`
      are copied, and nothing else of the partner changes. After a geometry edit that
      keeps the source inside the grid, rotating the partner gives the source back. */
  lemma ZonePatchReachesPartner(zones: seq<Zone>, sourceId: string, patch: ZonePatch,
                                cols: int, rows: int, k: nat, i: nat)
    requires k < |zones| && zones[k].id == sourceId
    requires forall j :: 0 <= j < k ==> zones[j].id != sourceId
    requires i < |zones| && MirrorZoneId(sourceId) == Some(zones[i].id)
    ensures var r := ApplyMirroredZonePatch(zones, sourceId, patch, cols, rows);
      var src := Merge(zones[k], patch);
      var z := zones[i];
      && r[k] == src
      && r[i].Grid() == (if patch.TouchesGeometry() then MirroredZonePosition(src.Grid(), cols, rows) else z.Grid())
      && r[i].upsideDown == (if patch.upsideDown.Some? then !patch.upsideDown.value else z.upsideDown)
      && r[i].name == patch.name.GetOr(z.name)
      && r[i].icon == patch.icon.GetOr(z.icon)
      && r[i].text == patch.text.GetOr(z.text)
      && r[i].id == z.id && r[i].locked == z.locked && r[i].textEntries == z.textEntries
      && (patch.TouchesGeometry() && InGrid(src.Grid(), cols, rows) ==>
            MirroredZonePosition(r[i].Grid(), cols, rows) == r[k].Grid())
  {
    var next := PatchWhere(zones, sourceId, patch);
    MirrorZoneIdInvolution(sourceId);
    var mirrorId := MirrorZoneId(sourceId).value;
    assert next[i].id == mirrorId;
    assert FindZone(next, sourceId) == Some(k) by {
      assert forall j :: 0 <= j < |next| ==> next[j].id == zones[j].id;
    }
    assert FindZone(next, mirrorId).Some?;
    var src := Merge(zones[k], patch);
    var r := ApplyMirroredZonePatch(zones, sourceId, patch, cols, rows);
    assert next[k] == src;
    assert r[i] == Merge(zones[i], MirroredPatch(src, patch, cols, rows));
    MergeMirroredPatch(zones[i], src, patch, cols, rows);
    if patch.TouchesGeometry() && InGrid(src.Grid(), cols, rows) {
      MirroredPositionInvolution(src.Grid(), cols, rows);
    }
  }

  /** The swap table for score-track positions. */
  function MirrorTrackPosition(position: string): (r: string)
    ensures position == "left" <==> r == "right"
    ensures position == "right" <==> r == "left"
    ensures position == "center-left" <==> r == "center-right"
    ensures position == "center-right" <==> r == "center-left"
    ensures position !in {"left", "right", "center-left", "center-right"} ==> r == position
  {
    if position == "left" then "right"
    else if position == "right" then "left"
    else if position == "center-left" then "center-right"
    else if position == "center-right" then "center-left"
    else position
  }

  lemma MirrorTrackPositionInvolution(position: string)
    ensures MirrorTrackPosition(MirrorTrackPosition(position)) == position
  {
  }

  /** A score-track edit: the keys present in the patch object. */
  datatype TrackPatch = TrackPatch(
    count: Option<int>, startValue: Option<int>, points: Option<seq<Point>>,
    position: Option<string>,
    yStart: Option<Option<real>>, yEnd: Option<Option<real>>, x: Option<Option<real>>,
    upsideDown: Option<bool>, name: Option<string>,
    edgeRunnerXShift: Option<real>, orbScale: Option<real>)

  /** `{ ...track, ...patch }` */
  function MergeTrack(t: ScoreTrack, p: TrackPatch): ScoreTrack {
    ScoreTrack(p.count.GetOr(t.count), p.startValue.GetOr(t.startValue), p.points.GetOr(t.points),
               p.position.GetOr(t.position), p.yStart.GetOr(t.yStart), p.yEnd.GetOr(t.yEnd),
               p.x.GetOr(t.x), p.upsideDown.GetOr(t.upsideDown), p.name.GetOr(t.name),
               p.edgeRunnerXShift.GetOr(t.edgeRunnerXShift), p.orbScale.GetOr(t.orbScale))
  }

  /** The vertical band of a track reflected about the horizontal midline of the canvas. */
  function MirroredYStart(src: ScoreTrack): real { ClampReal(1.0 - src.yEnd.GetOr(0.92), 0.0, 1.0) }
  function MirroredYEnd(src: ScoreTrack): real { ClampReal(1.0 - src.yStart.GetOr(0.08), 0.0, 1.0) }

  /** `applyMirroredScoreTrackPatch`: patch the edited track; when there are exactly
      two tracks, carry the edit over to the other one. An index outside the list
      patches nothing; with two tracks the source would then read a missing track,
      which the precondition excludes. */
  function ApplyMirroredScoreTrackPatch(tracks: seq<ScoreTrack>, editedIndex: int, patch: TrackPatch,
                                        canvasWidth: real): (r: seq<ScoreTrack>)
    requires |tracks| == 2 ==> 0 <= editedIndex < 2
    ensures |r| == |tracks|
  {
    var next := seq(|tracks|, i requires 0 <= i < |tracks| =>
                      if i == editedIndex then MergeTrack(tracks[i], patch) else tracks[i]);
    if |next| != 2 then next
    else
      var mi := if editedIndex == 0 then 1 else 0;
      next[mi := FollowTrack(next[mi], next[editedIndex], patch, canvasWidth)]
  }

  /** The other track of a pair after the edited track became `src` through `patch`.
      Each field has its own rule; `x` is written by the `position` rule and then by
      the `x` rule, so a patched `x` wins. */
  function FollowTrack(m: ScoreTrack, src: ScoreTrack, patch: TrackPatch, canvasWidth: real): ScoreTrack {
    var touchesBand := patch.yStart.Some? || patch.yEnd.Some?;
    m.(count := if patch.count.Some? then src.count else m.count,
       name := if patch.name.Some? then src.name else m.name,
       orbScale := if patch.orbScale.Some? then src.orbScale else m.orbScale,
       position := if patch.position.Some? then MirrorTrackPosition(src.position) else m.position,
       yStart := if touchesBand then Some(MirroredYStart(src)) else m.yStart,
       yEnd := if touchesBand then Some(MirroredYEnd(src)) else m.yEnd,
       upsideDown := if patch.upsideDown.Some? then !src.upsideDown else m.upsideDown,
       x := if patch.x.Some? then
              (if src.x.Some? then Some(if canvasWidth - src.x.value < 0.0 then 0.0 else canvasWidth - src.x.value)
               else None)
            else if patch.position.Some? then None
            else m.x)
  }

  lemma FollowTrackFields(m: ScoreTrack, src: ScoreTrack, patch: TrackPatch, canvasWidth: real)
    ensures var f := FollowTrack(m, src, patch, canvasWidth);
      && f.count == (if patch.count.Some? then src.count else m.count)
      && f.name == (if patch.name.Some? then src.name else m.name)
      && f.orbScale == (if patch.orbScale.Some? then src.orbScale else m.orbScale)
      && f.position == (if patch.position.Some? then MirrorTrackPosition(src.position) else m.position)
      && f.upsideDown == (if patch.upsideDown.Some? then !src.upsideDown else m.upsideDown)
      && f.yStart == (if patch.yStart.Some? || patch.yEnd.Some? then Some(MirroredYStart(src)) else m.yStart)
      && f.yEnd == (if patch.yStart.Some? || patch.yEnd.Some? then Some(MirroredYEnd(src)) else m.yEnd)
      && f.x == (if patch.x.Some? && src.x.Some? then
                   Some(if canvasWidth - src.x.value < 0.0 then 0.0 else canvasWidth - src.x.value)
                 else if patch.x.Some? || patch.position.Some? then None
                 else m.x)
      && f.startValue == m.startValue && f.points == m.points && f.edgeRunnerXShift == m.edgeRunnerXShift
  {
  }

  /** Unless there are exactly two tracks, only the edited track changes. */
  lemma TrackPatchWithoutPair(tracks: seq<ScoreTrack>, editedIndex: int, patch: TrackPatch, canvasWidth: real)
    requires |tracks| != 2
    ensures var r := ApplyMirroredScoreTrackPatch(tracks, editedIndex, patch, canvasWidth);
      forall i :: 0 <= i < |tracks| ==> r[i] == if i == editedIndex then MergeTrack(tracks[i], patch) else tracks[i]
  {
  }

  /** With two tracks the edited one gets the patch and the other follows it: `count`,
      `name` and `orbScale` are copied; a new `position` is swapped and drops the
      other's absolute `x`; a new `yStart` or `yEnd` reflects the band into [0, 1];
      `upsideDown` is negated; a new `x` is reflected across the canvas width (or
      cleared when it is not a number) and wins over the reset by `position`. The
      other's `startValue`, `points` and `edgeRunnerXShift` stay as they were. */
  lemma TrackPatchReachesPartner(tracks: seq<ScoreTrack>, editedIndex: int, patch: TrackPatch, canvasWidth: real)
    requires |tracks| == 2 && 0 <= editedIndex < 2
    ensures var r := ApplyMirroredScoreTrackPatch(tracks, editedIndex, patch, canvasWidth);
      var mi := 1 - editedIndex;
      var src := MergeTrack(tracks[editedIndex], patch);
      var m := tracks[mi];
      && r[editedIndex] == src
      && r[mi].count == patch.count.GetOr(m.count)
      && r[mi].name == patch.name.GetOr(m.name)
      && r[mi].orbScale == patch.orbScale.GetOr(m.orbScale)
      && r[mi].position == (if patch.position.Some? then MirrorTrackPosition(patch.position.value) else m.position)
      && r[mi].upsideDown == (if patch.upsideDown.Some? then !patch.upsideDown.value else m.upsideDown)
      && (patch.yStart.Some? || patch.yEnd.Some? ==>
            r[mi].yStart == Some(MirroredYStart(src)) && r[mi].yEnd == Some(MirroredYEnd(src)) &&
            0.0 <= r[mi].yStart.value <= 1.0 && 0.0 <= r[mi].yEnd.value <= 1.0)
      && (patch.yStart.None? && patch.yEnd.None? ==> r[mi].yStart == m.yStart && r[mi].yEnd == m.yEnd)
      && r[mi].x == (if patch.x.Some? && patch.x.value.Some? then
                       Some(if canvasWidth - patch.x.value.value < 0.0 then 0.0 else canvasWidth - patch.x.value.value)
                     else if patch.x.Some? || patch.position.Some? then None
                     else m.x)
      && r[mi].startValue == m.startValue && r[mi].points == m.points
      && r[mi].edgeRunnerXShift == m.edgeRunnerXShift
  {
    var r := ApplyMirroredScoreTrackPatch(tracks, editedIndex, patch, canvasWidth);
    var mi := 1 - editedIndex;
    var src := MergeTrack(tracks[editedIndex], patch);
    assert r[editedIndex] == src;
    assert r[mi] == FollowTrack(tracks[mi], src, patch, canvasWidth);
    FollowTrackFields(tracks[mi], src, patch, canvasWidth);
  }

  /** Reflecting a band that lies in [0, 1] is exact, and reflecting the reflection
      gives the band back. */
  lemma MirroredBandRoundTrip(src: ScoreTrack, back: ScoreTrack)
    requires src.yStart.Some? && src.yEnd.Some?
    requires 0.0 <= src.yStart.value <= 1.0 && 0.0 <= src.yEnd.value <= 1.0
    requires back.yStart == Some(MirroredYStart(src)) && back.yEnd == Some(MirroredYEnd(src))
    ensures MirroredYStart(src) == 1.0 - src.yEnd.value && MirroredYEnd(src) == 1.0 - src.yStart.value
    ensures MirroredYStart(back) == src.yStart.value && MirroredYEnd(back) == src.yEnd.value
  {
  }
}
