/** The configuration a playmat overlay is drawn from: canvas, grid, zones, score
    tracks. JavaScript's optional fields are `Option`s where their presence matters;
    where the code only ever reads a field through a default, the default is the value. */
module Model {
  import opened Strings

  /** A block of text drawn in a zone: the legacy `text` field of a zone, or one of its
      `textEntries`. The percentages are `None` when the object has no such key. */
  datatype TextSpec = TextSpec(
    content: string,
    xPct: Option<real>, yPct: Option<real>, wPct: Option<real>, hPct: Option<real>,
    align: string, valign: string, color: string,
    fontSize: real,     // 0 means "choose a size that fits"
    enabled: bool)

  /** What `mkZoneText()` returns: a disabled, empty, centred text block. */
  function ZoneText(): (t: TextSpec)
    ensures !t.enabled && t.content == "" && t.xPct.None? && t.fontSize == 0.0
  {
    TextSpec("", None, None, None, None, "center", "middle", "", 0.0, false)
  }

  /** The four grid coordinates of a zone (columns and rows count from 1). */
  datatype GridPos = GridPos(colStart: int, colSpan: int, rowStart: int, rowSpan: int)

  /** A labelled region of the grid. `textEntries` is `None` when the zone has none. */
  datatype Zone = Zone(
    id: string, name: string, icon: string,
    colStart: int, colSpan: int, rowStart: int, rowSpan: int,
    locked: bool, upsideDown: bool,
    text: TextSpec, textEntries: Option<seq<TextSpec>>)
  {
    function Grid(): GridPos { GridPos(colStart, colSpan, rowStart, rowSpan) }
  }

  /** One orb of a score track laid out by explicit points. */
  datatype Point = Point(xPct: Option<real>, yPct: Option<real>, x: Option<real>, y: Option<real>,
                         pointLabel: Option<int>)   // the source's `label`

  /** A score track. The fields the renderer reads through a default hold that default
      when the object lacks them (count 9, startValue 0, position "left", name "",
      edgeRunnerXShift 0, orbScale 1, upsideDown false, points []); `yStart` and `yEnd`
      stay optional because their presence steers the point-cluster placement, and `x`
      is `None` for both `null` and a missing key. */
  datatype ScoreTrack = ScoreTrack(
    count: int, startValue: int, points: seq<Point>, position: string,
    yStart: Option<real>, yEnd: Option<real>, x: Option<real>,
    upsideDown: bool, name: string, edgeRunnerXShift: real, orbScale: real)

  datatype Canvas = Canvas(width: Option<real>, height: Option<real>)

  /** A whole layout. `zones` is `None` for an object without zones; `scoreTracks == []`
      stands for a missing or empty array. */
  datatype Config = Config(
    canvas: Option<Canvas>,
    gridCols: int, gridRows: int,
    rowHeights: Option<seq<real>>,
    zones: Option<seq<Zone>>,
    scoreTrack: Option<ScoreTrack>,
    scoreTracks: seq<ScoreTrack>)
}
