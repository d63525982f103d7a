/** Where a score track's orbs and name go: the lane a side track runs in, the centre
    line of the track, the translated cluster of a track laid out by explicit points,
    and the evenly spaced column of a track laid out by count. */
module ScoreTracks {
  import opened Strings
  import opened Model
  import opened Geometry
  import TextLayout

  const ScoreCx: real := 52.0
  const ScoreRMax: real := 38.0
  const ScoreStep: real := 140.0

  /** The renderer's `edgeRunner` option; `inset` is `None` when it has no such key. */
  datatype EdgeRunner = EdgeRunner(enabled: bool, inset: Option<real>)

  function EdgeInset(er: EdgeRunner): real {
    if er.enabled then er.inset.GetOr(18.0) else 0.0
  }

  /** `sideLane(side)`: the strip between the mat edge (moved in by the edge runner's
      inset) and the widened zone padding. */
  datatype Lane = Lane(outer: real, inner: real, cx: real, width: real)

  function SideLane(side: Side, matW: real, inset: real): Lane {
    if side == Left then
      Lane(inset, TrackPad, (inset + TrackPad) / 2.0,
           if 24.0 > TrackPad - inset then 24.0 else TrackPad - inset)
    else
      Lane(matW - inset, matW - TrackPad, ((matW - inset) + (matW - TrackPad)) / 2.0,
           if 24.0 > (matW - inset) - (matW - TrackPad) then 24.0
           else (matW - inset) - (matW - TrackPad))
  }

  /** The two lanes are reflections of each other: same width, and the right lane's
      centre is the left one's reflected across the mat. Each centre lies halfway
      between its edges. */
  lemma LanesMirror(matW: real, inset: real)
    ensures SideLane(Right, matW, inset).cx == matW - SideLane(Left, matW, inset).cx
    ensures SideLane(Right, matW, inset).width == SideLane(Left, matW, inset).width >= 24.0
    ensures forall s: Side :: SideLane(s, matW, inset).cx - SideLane(s, matW, inset).outer
                              == SideLane(s, matW, inset).inner - SideLane(s, matW, inset).cx
  {
  }

  /** `posToCx()`: the centre line of the track before mirroring. */
  function PosToCx(t: ScoreTrack, matW: real, inset: real): real {
    if t.x.Some? then t.x.value
    else if t.position == "left" then SideLane(Left, matW, inset).cx
    else if t.position == "right" then SideLane(Right, matW, inset).cx
    else if t.position == "center-left" then matW * 0.47
    else if t.position == "center-right" then matW * 0.53
    else ScoreCx
  }

  /** The centre line the orbs are drawn on: reflected on a mirrored mat, then shifted
      by `edgeRunnerXShift` when the edge runner is on (a zero shift is skipped). */
  function TrackCx(t: ScoreTrack, mirrored: bool, matW: real, er: EdgeRunner): real {
    var cx := PosToCx(t, matW, EdgeInset(er));
    var cx1 := if mirrored then matW - cx else cx;
    if er.enabled && t.edgeRunnerXShift != 0.0 then cx1 + t.edgeRunnerXShift else cx1
  }

  /** An explicit `x` wins over the position; without one, `left`/`right` run down the
      middle of their lane, the two centre positions sit at 47% and 53% of the width,
      and any other position falls back to 52 px. */
  lemma CentreResolution(t: ScoreTrack, matW: real, inset: real)
    ensures t.x.Some? ==> PosToCx(t, matW, inset) == t.x.value
    ensures t.x.None? && t.position == "left" ==> PosToCx(t, matW, inset) == SideLane(Left, matW, inset).cx
    ensures t.x.None? && t.position == "right" ==> PosToCx(t, matW, inset) == SideLane(Right, matW, inset).cx
    ensures t.x.None? && t.position == "center-left" ==> PosToCx(t, matW, inset) == matW * 0.47
    ensures t.x.None? && t.position == "center-right" ==> PosToCx(t, matW, inset) == matW * 0.53
    ensures t.x.None? && t.position !in {"left", "right", "center-left", "center-right"} ==>
              PosToCx(t, matW, inset) == ScoreCx
  {
  }

  /** Mirroring moves a track to where the opposite position would be drawn on an
      unmirrored mat: left and right swap lanes, and the two centre positions swap. */
  lemma MirroredCentreSwapsSides(t: ScoreTrack, matW: real, er: EdgeRunner)
    requires t.x.None? && !(er.enabled && t.edgeRunnerXShift != 0.0)
    ensures t.position == "left" ==>
              TrackCx(t, true, matW, er) == TrackCx(t.(position := "right"), false, matW, er)
    ensures t.position == "right" ==>
              TrackCx(t, true, matW, er) == TrackCx(t.(position := "left"), false, matW, er)
    ensures t.position == "center-left" ==>
              TrackCx(t, true, matW, er) == TrackCx(t.(position := "center-right"), false, matW, er)
    ensures t.position == "center-right" ==>
              TrackCx(t, true, matW, er) == TrackCx(t.(position := "center-left"), false, matW, er)
  {
  }

  // ---------------------------------------------------------------- orbs

  /** One orb: its centre, radius and the value printed in it. */
  datatype Orb = Orb(x: real, y: real, r: real, value: int)

  function Max(a: real, b: real): real { if a > b then a else b }
  function Min(a: real, b: real): real { if a < b then a else b }

  /** `orbScale || 1`: a zero scale counts as missing. */
  function Scale(t: ScoreTrack): real { if t.orbScale == 0.0 then 1.0 else t.orbScale }

  /** The radius `drawOrb` draws every orb with: 26 px scaled, kept in 11..38. */
  function DrawOrbRadius(t: ScoreTrack): (r: real)
    ensures 11.0 <= r <= ScoreRMax
  {
    var baseR := Max(11.0, Min(ScoreRMax, 26.0 * Scale(t)));
    Max(11.0, Min(ScoreRMax, baseR))
  }

  // ---------------------------------------------------------------- point clusters

  /** Where a point sits before the cluster is moved: a percentage of the mat wins over
      an absolute coordinate, which wins over the track's centre line (horizontally) or
      the middle of the mat (vertically). */
  function ResolveX(p: Point, matW: real, cx: real): real {
    if p.xPct.Some? then matW * TextLayout.Clamp01(p.xPct.value)
    else if p.x.Some? then p.x.value else cx
  }

  function ResolveY(p: Point, matH: real): real {
    if p.yPct.Some? then matH * TextLayout.Clamp01(p.yPct.value)
    else if p.y.Some? then p.y.value else matH * 0.5
  }

  function ResolvedXs(ps: seq<Point>, matW: real, cx: real): (xs: seq<real>)
    ensures |xs| == |ps|
    ensures forall i :: 0 <= i < |ps| ==> xs[i] == ResolveX(ps[i], matW, cx)
  {
    seq(|ps|, i requires 0 <= i < |ps| => ResolveX(ps[i], matW, cx))
  }

  function ResolvedYs(ps: seq<Point>, matH: real): (ys: seq<real>)
    ensures |ys| == |ps|
    ensures forall i :: 0 <= i < |ps| ==> ys[i] == ResolveY(ps[i], matH)
  {
    seq(|ps|, i requires 0 <= i < |ps| => ResolveY(ps[i], matH))
  }

  function Mean(s: seq<real>): real
    requires s != []
  {
    Sum(s) / |s| as real
  }

  /** Where the cluster's centre is moved: an explicit `x`, else its own centre
      horizontally; vertically the middle of `yStart`..`yEnd`, or whichever of the two
      the track has, else its own centre. */
  function TargetCx(t: ScoreTrack, baseCx: real): real {
    if t.x.Some? then t.x.value else baseCx
  }

  function TargetCy(t: ScoreTrack, matH: real, baseCy: real): real {
    if t.yStart.Some? && t.yEnd.Some? then matH * ((t.yStart.value + t.yEnd.value) / 2.0)
    else if t.yStart.Some? then matH * t.yStart.value
    else if t.yEnd.Some? then matH * t.yEnd.value
    else baseCy
  }

  /** `point.label ?? (startValue + i)`. */
  function LabelOf(p: Point, fallback: int): int {
    if p.pointLabel.Some? then p.pointLabel.value else fallback
  }

  /** The orbs of a track with explicit points: every point moved by the same offset,
      then reflected across the mat when mirrored. */
  function ClusterOrbs(t: ScoreTrack, mirrored: bool, matW: real, matH: real, cx: real)
    : (orbs: seq<Orb>)
    requires t.points != []
    ensures |orbs| == |t.points|
  {
    var xs := ResolvedXs(t.points, matW, cx);
    var ys := ResolvedYs(t.points, matH);
    var dx := TargetCx(t, Mean(xs)) - Mean(xs);
    var dy := TargetCy(t, matH, Mean(ys)) - Mean(ys);
    seq(|xs|, i requires 0 <= i < |xs| =>
      Orb(if mirrored then matW - (xs[i] + dx) else xs[i] + dx, ys[i] + dy,
          DrawOrbRadius(t), LabelOf(t.points[i], t.startValue + i)))
  }

  /** Adding the same `d` to every element adds `n * d` to the sum. */
  lemma {:induction false} SumShifted(a: seq<real>, b: seq<real>, d: real)
    requires |b| == |a| && forall i :: 0 <= i < |a| ==> b[i] == a[i] + d
    ensures Sum(b) == Sum(a) + |a| as real * d
    decreases |a|
  {
    if a != [] {
      var n := |a|;
      SumShifted(a[..n - 1], b[..n - 1], d);
      assert (n - 1) as real * d + d == n as real * d;
    }
  }

  /** Reflecting every element as `m - a[i]` turns the sum into `n * m - Sum(a)`. */
  lemma {:induction false} SumReflected(a: seq<real>, b: seq<real>, m: real)
    requires |b| == |a| && forall i :: 0 <= i < |a| ==> b[i] == m - a[i]
    ensures Sum(b) == |a| as real * m - Sum(a)
    decreases |a|
  {
    if a != [] {
      var n := |a|;
      SumReflected(a[..n - 1], b[..n - 1], m);
      assert (n - 1) as real * m + m == n as real * m;
    }
  }

  lemma MeanShifted(a: seq<real>, b: seq<real>, d: real)
    requires a != [] && |b| == |a| && forall i :: 0 <= i < |a| ==> b[i] == a[i] + d
    ensures Mean(b) == Mean(a) + d
  {
    SumShifted(a, b, d);
    var n := |a| as real;
    assert Sum(b) / n == (Sum(a) + n * d) / n;
    assert (Sum(a) + n * d) / n == Sum(a) / n + d;
  }

  lemma MeanReflected(a: seq<real>, b: seq<real>, m: real)
    requires a != [] && |b| == |a| && forall i :: 0 <= i < |a| ==> b[i] == m - a[i]
    ensures Mean(b) == m - Mean(a)
  {
    SumReflected(a, b, m);
    var n := |a| as real;
    assert (n * m - Sum(a)) / n == m - Sum(a) / n;
  }

  function OrbXs(orbs: seq<Orb>): (xs: seq<real>)
    ensures |xs| == |orbs| && forall i :: 0 <= i < |orbs| ==> xs[i] == orbs[i].x
  {
    seq(|orbs|, i requires 0 <= i < |orbs| => orbs[i].x)
  }

  function OrbYs(orbs: seq<Orb>): (ys: seq<real>)
    ensures |ys| == |orbs| && forall i :: 0 <= i < |orbs| ==> ys[i] == orbs[i].y
  {
    seq(|orbs|, i requires 0 <= i < |orbs| => orbs[i].y)
  }

  /** The cluster moves rigidly: the offset between any two orbs is the offset between
      their points (reflected horizontally on a mirrored mat). */
  lemma ClusterIsRigid(t: ScoreTrack, mirrored: bool, matW: real, matH: real, cx: real,
                       i: nat, j: nat)
    requires t.points != [] && i < |t.points| && j < |t.points|
    ensures var orbs := ClusterOrbs(t, mirrored, matW, matH, cx);
            var xi := ResolveX(t.points[i], matW, cx);
            var xj := ResolveX(t.points[j], matW, cx);
            orbs[i].x - orbs[j].x == (if mirrored then xj - xi else xi - xj)
            && orbs[i].y - orbs[j].y == ResolveY(t.points[i], matH) - ResolveY(t.points[j], matH)
  {
  }

  /** The cluster's centre lands on the target: `x` (or its own centre) horizontally,
      reflected on a mirrored mat, and the `yStart`/`yEnd` target vertically. */
  lemma ClusterCentroid(t: ScoreTrack, mirrored: bool, matW: real, matH: real, cx: real)
    requires t.points != []
    ensures var xs := ResolvedXs(t.points, matW, cx);
            var orbs := ClusterOrbs(t, mirrored, matW, matH, cx);
            Mean(OrbXs(orbs)) == (if mirrored then matW - TargetCx(t, Mean(xs))
                                  else TargetCx(t, Mean(xs)))
    ensures var ys := ResolvedYs(t.points, matH);
            var orbs := ClusterOrbs(t, mirrored, matW, matH, cx);
            Mean(OrbYs(orbs)) == TargetCy(t, matH, Mean(ys))
  {
    var xs := ResolvedXs(t.points, matW, cx);
    var ys := ResolvedYs(t.points, matH);
    var dx := TargetCx(t, Mean(xs)) - Mean(xs);
    var dy := TargetCy(t, matH, Mean(ys)) - Mean(ys);
    var orbs := ClusterOrbs(t, mirrored, matW, matH, cx);
    var moved := seq(|xs|, i requires 0 <= i < |xs| => xs[i] + dx);
    MeanShifted(xs, moved, dx);
    if mirrored {
      MeanReflected(moved, OrbXs(orbs), matW);
    } else {
      assert OrbXs(orbs) == moved;
    }
    MeanShifted(ys, OrbYs(orbs), dy);
  }

  // ---------------------------------------------------------------- even columns

  /** The vertical span of an evenly laid out track, in pixels: `yStart` and `yEnd`
      (0.08 and 0.92 by default) of the mat height, in either order. */
  datatype Span = Span(lo: real, hi: real)

  function SpanOf(t: ScoreTrack, matH: real): (sp: Span)
    ensures sp.lo <= sp.hi
  {
    var yA := matH * t.yStart.GetOr(0.08);
    var yB := matH * t.yEnd.GetOr(0.92);
    Span(Min(yA, yB), Max(yA, yB))
  }

  /** At least 20 px is assumed available even for a shorter span. */
  function Avail(sp: Span): (a: real)
    ensures a >= 20.0
  {
    Max(20.0, sp.hi - sp.lo)
  }

  /** The distance between neighbouring orbs: the span shared out over the gaps, but at
      most 140 px. */
  function Step(count: int, sp: Span): (s: real)
    ensures 0.0 < s <= ScoreStep
  {
    var gaps := if 1 > count - 1 then 1 else count - 1;
    Min(ScoreStep, Avail(sp) / gaps as real)
  }

  /** The y of slot 0. */
  function StartY(count: int, sp: Span): real {
    if count <= 1 then (sp.lo + sp.hi) / 2.0
    else sp.lo + Max(0.0, (Avail(sp) - (count - 1) as real * Step(count, sp)) / 2.0)
  }

  /** The slot orb `i` occupies: counting down from the bottom unless the track is
      upside down. */
  function Slot(upsideDown: bool, count: int, i: int): int {
    if upsideDown then i else count - 1 - i
  }

  /** 42% of the step, kept in 11..38. */
  function BaseRadius(step: real): real { Max(11.0, Min(ScoreRMax, step * 0.42)) }

  /** The base radius scaled by `orbScale`, kept in 11..38. */
  function ScaledRadius(t: ScoreTrack, matH: real): real {
    Max(11.0, Min(ScoreRMax, BaseRadius(Step(t.count, SpanOf(t, matH))) * Scale(t)))
  }

  /** The radius the even layout computes: the scaled radius, no wider than half the lane
      less 4 px for a side track without an explicit `x`. */
  function EvenOrbRadius(t: ScoreTrack, matW: real, matH: real, inset: real): (r: real)
    ensures 11.0 <= r <= ScoreRMax
    ensures r <= ScaledRadius(t, matH)
  {
    var r := ScaledRadius(t, matH);
    if t.x.None? && (t.position == "left" || t.position == "right") then
      var lane := SideLane(if t.position == "left" then Left else Right, matW, inset);
      Min(r, Max(11.0, lane.width / 2.0 - 4.0))
    else r
  }

  /** Orb `i` of an even track over the span `sp`. */
  function EvenOrb(t: ScoreTrack, cx: real, sp: Span, r: real, i: int): Orb {
    Orb(cx, StartY(t.count, sp) + Slot(t.upsideDown, t.count, i) as real * Step(t.count, sp),
        r, t.startValue + i)
  }

  /** The `for` loop of the even layout. */
  method EvenOrbs(t: ScoreTrack, cx: real, sp: Span, r: real) returns (orbs: seq<Orb>)
    ensures |orbs| == if t.count > 0 then t.count else 0
    ensures forall i :: 0 <= i < |orbs| ==> orbs[i] == EvenOrb(t, cx, sp, r, i)
  {
    orbs := [];
    var step := Step(t.count, sp);
    var startY := StartY(t.count, sp);
    var i := 0;
    while i < t.count
      invariant i == |orbs| <= (if t.count > 0 then t.count else 0)
      invariant forall k :: 0 <= k < i ==> orbs[k] == EvenOrb(t, cx, sp, r, k)
      decreases t.count - i
    {
      var index := if t.upsideDown then i else t.count - 1 - i;
      orbs := orbs + [Orb(cx, startY + index as real * step, r, t.startValue + i)];
      i := i + 1;
    }
  }

  /** Every orb gets its own slot: the slots are a permutation of 0..count-1. */
  lemma SlotsArePermutation(upsideDown: bool, count: int, i: int, j: int)
    requires 0 <= i < count && 0 <= j < count
    ensures 0 <= Slot(upsideDown, count, i) < count
    ensures Slot(upsideDown, count, i) == Slot(upsideDown, count, j) ==> i == j
  {
  }

  /** Turning a track upside down reverses the column: orb `i` takes the place orb
      `count-1-i` had, and keeps its own value. */
  lemma UpsideDownReverses(t: ScoreTrack, cx: real, sp: Span, r: real, i: int)
    requires 0 <= i < t.count
    ensures EvenOrb(t.(upsideDown := true), cx, sp, r, i).y
            == EvenOrb(t.(upsideDown := false), cx, sp, r, t.count - 1 - i).y
    ensures EvenOrb(t.(upsideDown := true), cx, sp, r, i).value
            == EvenOrb(t.(upsideDown := false), cx, sp, r, i).value == t.startValue + i
  {
  }

  lemma MulMono(a: real, b: real, c: real)
    requires 0.0 <= a <= b && c >= 0.0
    ensures a * c <= b * c
  {
    assert b * c - a * c == (b - a) * c;
  }

  /** The whole column fits in the span the orbs may use: the gaps add up to at most the
      available height. */
  lemma ColumnFitsAvail(count: int, sp: Span)
    requires count >= 2
    ensures (count - 1) as real * Step(count, sp) <= Avail(sp)
  {
    var n := (count - 1) as real;
    var a := Avail(sp);
    var s := Step(count, sp);
    assert s <= a / n;
    MulMono(s, a / n, n);
    assert (a / n) * n == a;
  }

  /** When the span is at least 20 px, every orb's centre lies inside it and the column
      is centred on the span's middle. */
  lemma EvenOrbsInsideSpan(t: ScoreTrack, cx: real, sp: Span, r: real, i: int)
    requires 0 <= i < t.count
    requires sp.hi - sp.lo >= 20.0
    ensures sp.lo <= EvenOrb(t, cx, sp, r, i).y <= sp.hi
    ensures StartY(t.count, sp) + (t.count - 1) as real * Step(t.count, sp) / 2.0
            == (sp.lo + sp.hi) / 2.0
  {
    var s := Step(t.count, sp);
    var slot := Slot(t.upsideDown, t.count, i) as real;
    var n := (t.count - 1) as real;
    if t.count >= 2 {
      StartYUnfolds(t.count, sp);
      assert EvenOrb(t, cx, sp, r, i).y == StartY(t.count, sp) + slot * s;
      ColumnSlot(sp.lo, sp.hi, Avail(sp), n, s, slot, StartY(t.count, sp), EvenOrb(t, cx, sp, r, i).y);
    } else {
      assert slot == 0.0 && n == 0.0;
    }
  }

  /** Slot `slot` of a column of `n` gaps of `s`, centred in the span `lo..hi`, lies in
      the span. */
  lemma ColumnSlot(lo: real, hi: real, a: real, n: real, s: real, slot: real, y0: real, y: real)
    requires a == hi - lo && 0.0 <= s && 0.0 <= slot <= n && n * s <= a
    requires y0 == lo + (a - n * s) / 2.0 && y == y0 + slot * s
    ensures lo <= y <= hi
    ensures y0 + n * s / 2.0 == (lo + hi) / 2.0
  {
    MulMono(slot, n, s);
    MulMono(0.0, slot, s);
    ColumnArithmetic(lo, a, n * s, slot * s);
  }

  /** For two or more orbs over a span of at least 20 px, the column starts half the
      spare height below the top of the span. */
  lemma StartYUnfolds(count: int, sp: Span)
    requires count >= 2 && sp.hi - sp.lo >= 20.0
    ensures Avail(sp) == sp.hi - sp.lo
    ensures (count - 1) as real * Step(count, sp) <= Avail(sp)
    ensures StartY(count, sp) == sp.lo + (Avail(sp) - (count - 1) as real * Step(count, sp)) / 2.0
  {
    ColumnFitsAvail(count, sp);
  }

  /** The column of height `p` starts `(a - p) / 2` below `lo`; an orb `q` further down
      stays within `lo..lo + a`. */
  lemma ColumnArithmetic(lo: real, a: real, p: real, q: real)
    requires 0.0 <= q <= p <= a
    ensures lo <= lo + (a - p) / 2.0 + q <= lo + a
    ensures lo + (a - p) / 2.0 + p / 2.0 == lo + a / 2.0
  {
  }

  /** With the radius `drawOrb` uses, neighbouring orbs of a 9-orb track over a 320 px
      span overlap: they are 40 px apart but 52 px across, while the radius the even
      layout computes (and then leaves unused) keeps them apart. */
  lemma DrawnRadiusOverlaps()
    ensures var t := ScoreTrack(9, 0, [], "left", Some(0.3), Some(0.62), None, false, "", 0.0, 1.0);
            Step(t.count, SpanOf(t, 1000.0)) == 40.0
            && 2.0 * DrawOrbRadius(t) > Step(t.count, SpanOf(t, 1000.0))
            && 2.0 * EvenOrbRadius(t, 2450.0, 1000.0, 0.0) < Step(t.count, SpanOf(t, 1000.0))
  {
    var t := ScoreTrack(9, 0, [], "left", Some(0.3), Some(0.62), None, false, "", 0.0, 1.0);
    assert SpanOf(t, 1000.0) == Span(300.0, 620.0);
    assert Avail(SpanOf(t, 1000.0)) == 320.0;
    assert DrawOrbRadius(t) == 26.0;
    EvenRadiusSeparates(t, 2450.0, 1000.0, 0.0);
  }

  lemma ScaleDown(a: real, k: real)
    requires a >= 0.0 && k <= 1.0
    ensures a * k <= a
  {
    assert a - a * k == a * (1.0 - k);
  }

  /** With the radius the even layout computes, a track of scale at most 1 whose orbs are
      at least 27 px apart has non-overlapping neighbours. */
  lemma EvenRadiusSeparates(t: ScoreTrack, matW: real, matH: real, inset: real)
    requires 0.0 < Scale(t) <= 1.0
    requires Step(t.count, SpanOf(t, matH)) >= 27.0
    ensures 2.0 * EvenOrbRadius(t, matW, matH, inset) < Step(t.count, SpanOf(t, matH))
  {
    var s := Step(t.count, SpanOf(t, matH));
    var baseR := BaseRadius(s);
    BaseRadiusBound(s);
    ClampedScaleShrinks(baseR, Scale(t));
    assert ScaledRadius(t, matH) == Max(11.0, Min(ScoreRMax, baseR * Scale(t)));
    assert ScaledRadius(t, matH) <= baseR;
    LessThanHalf(EvenOrbRadius(t, matW, matH, inset), s);
  }

  lemma BaseRadiusBound(s: real)
    requires s >= 27.0
    ensures BaseRadius(s) <= s * 0.42
  {
  }

  lemma LessThanHalf(r: real, s: real)
    requires s > 0.0 && r <= s * 0.42
    ensures 2.0 * r < s
  {
  }

  lemma ClampedScaleShrinks(b: real, k: real)
    requires 11.0 <= b && 0.0 < k <= 1.0
    ensures Max(11.0, Min(ScoreRMax, b * k)) <= b
  {
    ScaleDown(b, k);
  }

  // ---------------------------------------------------------------- the track

  /** The track's name beside an even column, in the context's coordinates. */
  datatype NameLabel = NameLabel(x: real, y: real, align: string)

  function NameLabelOf(t: ScoreTrack, cx: real, matH: real, mirrored: bool): Option<NameLabel> {
    if t.name == "" then None
    else
      var x := if t.position == "left" then cx + 26.0
               else if t.position == "right" then cx - 26.0 else cx;
      var align := if t.position == "left" then "left"
                   else if t.position == "right" then "right" else "center";
      var y := (SpanOf(t, matH).lo + SpanOf(t, matH).hi) / 2.0;
      if mirrored then Some(NameLabel(-x, y, TextLayout.FlipAlign(align)))
      else Some(NameLabel(x, y, align))
  }

  /** The name sits beside the column on the mat's inner side, level with the span's
      middle; on a mirrored mat the drawing coordinate is negated and the alignment flips. */
  lemma NameLabelPlacement(t: ScoreTrack, cx: real, matH: real)
    requires t.name != ""
    ensures var a := NameLabelOf(t, cx, matH, false).value;
            var b := NameLabelOf(t, cx, matH, true).value;
            b.x == -a.x && b.y == a.y && b.align == TextLayout.FlipAlign(a.align)
            && a.y == (SpanOf(t, matH).lo + SpanOf(t, matH).hi) / 2.0
    ensures t.position == "left" ==> NameLabelOf(t, cx, matH, false).value.x == cx + 26.0
    ensures t.position == "right" ==> NameLabelOf(t, cx, matH, false).value.x == cx - 26.0
  {
  }

  /** What `drawScoreTrack` draws. */
  datatype TrackDrawing = TrackDrawing(orbs: seq<Orb>, name: Option<NameLabel>)

  /** `drawScoreTrack(ctx, scoreTrack, mirrored, matSize, options)` as written: the even
      column is drawn by `drawOrb`, whose radius depends only on the orb scale. */
  method DrawScoreTrack(t: ScoreTrack, mirrored: bool, matW: real, matH: real, er: EdgeRunner)
    returns (d: TrackDrawing)
    ensures var cx := TrackCx(t, mirrored, matW, er);
            t.points != [] ==> d == TrackDrawing(ClusterOrbs(t, mirrored, matW, matH, cx), None)
    ensures var cx := TrackCx(t, mirrored, matW, er);
            t.points == [] ==>
              |d.orbs| == (if t.count > 0 then t.count else 0)
              && (forall i :: 0 <= i < |d.orbs| ==>
                    d.orbs[i] == EvenOrb(t, cx, SpanOf(t, matH), DrawOrbRadius(t), i))
              && d.name == NameLabelOf(t, cx, matH, mirrored)
  {
    d := DrawTrackWith(t, mirrored, matW, matH, er, DrawOrbRadius(t));
  }

  /** The track as evidently intended: the even column is drawn with the radius the even
      layout computes from the step and the lane, so that, for a scale of at most 1 and
      orbs at least 27 px apart, neighbouring orbs do not overlap. */
  method DrawScoreTrackLaneLimited(t: ScoreTrack, mirrored: bool, matW: real, matH: real,
                                   er: EdgeRunner)
    returns (d: TrackDrawing)
    ensures var cx := TrackCx(t, mirrored, matW, er);
            t.points != [] ==> d == TrackDrawing(ClusterOrbs(t, mirrored, matW, matH, cx), None)
    ensures var cx := TrackCx(t, mirrored, matW, er);
            var r := EvenOrbRadius(t, matW, matH, EdgeInset(er));
            t.points == [] ==>
              |d.orbs| == (if t.count > 0 then t.count else 0)
              && (forall i :: 0 <= i < |d.orbs| ==> d.orbs[i] == EvenOrb(t, cx, SpanOf(t, matH), r, i))
              && d.name == NameLabelOf(t, cx, matH, mirrored)
    ensures t.points == [] && 0.0 < Scale(t) <= 1.0 && Step(t.count, SpanOf(t, matH)) >= 27.0 ==>
              forall i :: 0 <= i < |d.orbs| ==> 2.0 * d.orbs[i].r < Step(t.count, SpanOf(t, matH))
  {
    var r := EvenOrbRadius(t, matW, matH, EdgeInset(er));
    d := DrawTrackWith(t, mirrored, matW, matH, er, r);
    if t.points == [] && 0.0 < Scale(t) <= 1.0 && Step(t.count, SpanOf(t, matH)) >= 27.0 {
      EvenRadiusSeparates(t, matW, matH, EdgeInset(er));
    }
  }

  /** The body of `drawScoreTrack`, with the radius of the even column's orbs given. */
  method DrawTrackWith(t: ScoreTrack, mirrored: bool, matW: real, matH: real, er: EdgeRunner,
                       r: real)
    returns (d: TrackDrawing)
    ensures var cx := TrackCx(t, mirrored, matW, er);
            t.points != [] ==> d == TrackDrawing(ClusterOrbs(t, mirrored, matW, matH, cx), None)
    ensures var cx := TrackCx(t, mirrored, matW, er);
            t.points == [] ==>
              |d.orbs| == (if t.count > 0 then t.count else 0)
              && (forall i :: 0 <= i < |d.orbs| ==> d.orbs[i] == EvenOrb(t, cx, SpanOf(t, matH), r, i))
              && d.name == NameLabelOf(t, cx, matH, mirrored)
  {
    var cx := TrackCx(t, mirrored, matW, er);
    if t.points != [] {
      return TrackDrawing(ClusterOrbs(t, mirrored, matW, matH, cx), None);
    }
    var orbs := EvenOrbs(t, cx, SpanOf(t, matH), r);
    d := TrackDrawing(orbs, NameLabelOf(t, cx, matH, mirrored));
  }
}
