/** The built-in layouts: the mat size, the five Riftbound presets and the default
    custom grid, and the lookup of a preset by id. */
module Presets {
  import opened Strings
  import opened Model
  import LayoutSync

  const MatW: real := 2450.0
  const MatH: real := 1450.0

  /** The icon characters the presets use. */
  const Sword: string := "⚔"
  const Pawn: string := "♟"
  const Star: string := "✦"
  const Cards: string := "▣"
  const Gem: string := "◈"
  const Cross: string := "✕"
  const DottedCircle: string := "◌"

  /** A zone as the presets spell it out, with `text: mkZoneText()`. */
  function PresetZone(id: string, name: string, icon: string, colStart: int, colSpan: int,
                      rowStart: int, rowSpan: int, locked: bool, upsideDown: bool): Zone {
    Zone(id, name, icon, colStart, colSpan, rowStart, rowSpan, locked, upsideDown, ZoneText(), None)
  }

  /** A score track object with only `count` and `position` given. */
  function SimpleTrack(count: int, position: string): ScoreTrack {
    ScoreTrack(count, 0, [], position, None, None, None, false, "", 0.0, 1.0)
  }

  function Pt(xPct: real, yPct: real, pointLabel: int): Point {
    Point(Some(xPct), Some(yPct), None, None, Some(pointLabel))
  }

  const OnePlayerWithBattlefield: Config := Config(
    Some(Canvas(Some(MatW), Some(MatH))), 30, 3, Some([40.0, 30.0, 30.0]),
    Some([
      PresetZone("bf1", "Battlefield", Sword, 1, 14, 1, 1, true, false),
      PresetZone("bf2", "Battlefield", Sword, 17, 14, 1, 1, true, false),
      PresetZone("champion", "Champion", Pawn, 1, 4, 2, 1, true, false),
      PresetZone("legend", "Legend", Star, 5, 4, 2, 1, true, false),
      PresetZone("base", "Base", "", 9, 18, 2, 1, true, false),
      PresetZone("main_deck", "Main Deck", Cards, 27, 4, 2, 1, true, false),
      PresetZone("rune_deck", "Rune Deck", Gem, 1, 4, 3, 1, true, false),
      PresetZone("runes", "Runes", "", 5, 22, 3, 1, true, false),
      PresetZone("trash", "Trash", Cross, 27, 4, 3, 1, true, false)
    ]),
    Some(SimpleTrack(9, "left")), [])

  const OnePlayerNoBattlefield: Config := Config(
    Some(Canvas(Some(MatW), Some(MatH))), 24, 2, Some([52.0, 48.0]),
    Some([
      PresetZone("champion", "Champion", Pawn, 1, 4, 1, 1, true, false),
      PresetZone("legend", "Legend", Star, 5, 4, 1, 1, true, false),
      PresetZone("base", "Base", "", 9, 12, 1, 1, true, false),
      PresetZone("main_deck", "Main Deck", Cards, 21, 4, 1, 1, true, false),
      PresetZone("rune_deck", "Rune Deck", Gem, 1, 4, 2, 1, true, false),
      PresetZone("runes", "Runes", "", 5, 16, 2, 1, true, false),
      PresetZone("trash", "Trash", Cross, 21, 4, 2, 1, true, false)
    ]),
    Some(SimpleTrack(9, "left")), [])

  const TwoPlayerRows: seq<real> := [16.0, 16.0, 7.0, 14.0, 7.0, 16.0, 16.0]

  /** The rows of the far player (`p1_`, drawn upside down) in the two-player layouts. */
  function FarPlayerZones(championId: string, championName: string): seq<Zone> {
    [
      PresetZone("p1_rune_deck", "Rune Deck", Gem, 27, 4, 1, 1, true, true),
      PresetZone("p1_runes", "Runes", "", 5, 22, 1, 1, true, true),
      PresetZone("p1_trash", "Trash", Cross, 1, 4, 1, 1, true, true),
      PresetZone(championId, championName, Pawn, 27, 4, 2, 1, true, true),
      PresetZone("p1_legend", "Legend", Star, 23, 4, 2, 1, true, true),
      PresetZone("p1_base", "Base", "", 5, 18, 2, 1, true, true),
      PresetZone("p1_main_deck", "Main Deck", Cards, 1, 4, 2, 1, true, true)
    ]
  }

  /** The rows of the near player (`p2_`) in the two-player layouts. */
  function NearPlayerZones(championId: string, championName: string): seq<Zone> {
    [
      PresetZone(championId, championName, Pawn, 1, 4, 6, 1, true, false),
      PresetZone("p2_legend", "Legend", Star, 5, 4, 6, 1, true, false),
      PresetZone("p2_base", "Base", "", 9, 18, 6, 1, true, false),
      PresetZone("p2_main_deck", "Main Deck", Cards, 27, 4, 6, 1, true, false),
      PresetZone("p2_rune_deck", "Rune Deck", Gem, 1, 4, 7, 1, true, false),
      PresetZone("p2_runes", "Runes", "", 5, 22, 7, 1, true, false),
      PresetZone("p2_trash", "Trash", Cross, 27, 4, 7, 1, true, false)
    ]
  }

  const TwoPlayerWithBattlefield: Config := Config(
    Some(Canvas(Some(2040.0), Some(2040.0))), 30, 7, Some(TwoPlayerRows),
    Some(FarPlayerZones("p1_champion", "Champion") +
         [PresetZone("p1_bf", "Battlefield", Sword, 1, 13, 3, 3, true, false),
          PresetZone("p2_bf", "Battlefield", Sword, 18, 13, 3, 3, true, true)] +
         NearPlayerZones("p2_champion", "Champion")),
    None,
    [ScoreTrack(9, 0, [], "center-right", Some(0.39), Some(0.62), None, true, "", 0.0, 0.95),
     ScoreTrack(9, 0, [], "center-left", Some(0.39), Some(0.62), None, false, "", 0.0, 0.95)])

  const TwoPlayerBattlefieldAlt: Config := Config(
    Some(Canvas(Some(2040.0), Some(2040.0))), 30, 7, Some(TwoPlayerRows),
    Some(FarPlayerZones("p1_hero", "Hero") +
         [PresetZone("p1_bf", "Battlefield", Sword, 16, 15, 3, 3, true, true),
          PresetZone("p2_bf", "Battlefield", Sword, 1, 15, 3, 3, true, false)] +
         NearPlayerZones("p2_hero", "Hero")),
    None,
    [ScoreTrack(9, 0, [], "right", Some(0.04), Some(0.33), None, true, "", 5.0, 0.95),
     ScoreTrack(9, 0, [], "left", Some(0.67), Some(0.96), None, false, "", 5.0, 0.95)])

  const TwoPlayerBattlefieldAlt2: Config := Config(
    Some(Canvas(Some(2040.0), Some(2040.0))), 30, 7, Some(TwoPlayerRows),
    Some(FarPlayerZones("p1_champion", "Champion") +
         [PresetZone("p1_bf", "Battlefield", Sword, 1, 12, 3, 3, true, false),
          PresetZone("p2_bf", "Battlefield", Sword, 19, 12, 3, 3, true, true)] +
         NearPlayerZones("p2_champion", "Champion")),
    None,
    [ScoreTrack(9, 0,
                [Pt(0.44, 0.78, 3), Pt(0.48, 0.78, 2), Pt(0.52, 0.78, 1), Pt(0.56, 0.78, 0),
                 Pt(0.44, 0.72, 7), Pt(0.48, 0.72, 6), Pt(0.52, 0.72, 5), Pt(0.56, 0.72, 4)],
                "center-left", None, Some(0.59), None, false, "", 0.0, 1.1),
     ScoreTrack(9, 0,
                [Pt(0.44, 0.48, 4), Pt(0.48, 0.48, 5), Pt(0.52, 0.48, 6), Pt(0.56, 0.48, 7),
                 Pt(0.44, 0.42, 0), Pt(0.48, 0.42, 1), Pt(0.52, 0.42, 2), Pt(0.56, 0.42, 3)],
                "center-left", None, Some(0.41), None, true, "", 0.0, 1.1),
     ScoreTrack(1, 8, [], "left", Some(0.41), Some(0.41), Some(1020.0), false, "", 0.0, 1.5)])

  /** `DEFAULT_CUSTOM_CONFIG`: a 4 by 3 grid of five unlocked zones, no track. */
  const DefaultCustomConfig: Config := Config(
    Some(Canvas(Some(MatW), Some(MatH))), 4, 3, None,
    Some([
      PresetZone("z1", "Zone 1", Cards, 1, 2, 1, 1, false, false),
      PresetZone("z2", "Zone 2", DottedCircle, 3, 2, 1, 1, false, false),
      PresetZone("z3", "Zone 3", Star, 1, 1, 2, 2, false, false),
      PresetZone("z4", "Zone 4", Gem, 2, 2, 2, 2, false, false),
      PresetZone("z5", "Zone 5", Sword, 4, 1, 2, 2, false, false)
    ]),
    None, [])

  datatype Layout = Layout(id: string, title: string, config: Config)   // `title` is the source's `label`

  /** `RIFTBOUND_LAYOUTS`, in declaration order. */
  const RiftboundLayouts: seq<Layout> := [
    Layout("1p-with-battlefield", "1P Battlefield", OnePlayerWithBattlefield),
    Layout("1p-no-battlefield", "1P No Battlefield", OnePlayerNoBattlefield),
    Layout("2p-with-battlefield", "2P Battlefield", TwoPlayerWithBattlefield),
    Layout("2p-battlefield-alt", "2P Battlefield Alt", TwoPlayerBattlefieldAlt),
    Layout("2p-battlefield-alt-2", "2P Battlefield Alt 2", TwoPlayerBattlefieldAlt2)
  ]

  /** Index of the first layout with the given id. */
  function FindLayout(layouts: seq<Layout>, id: string): (k: Option<nat>)
    ensures k.Some? ==> k.value < |layouts| && layouts[k.value].id == id &&
                        forall j :: 0 <= j < k.value ==> layouts[j].id != id
    ensures k.None? ==> forall j :: 0 <= j < |layouts| ==> layouts[j].id != id
  {
    if layouts == [] then None
    else if layouts[0].id == id then Some(0)
    else match FindLayout(layouts[1..], id)
      case None => None
      case Some(k) => Some(k + 1)
  }

  /** `getRiftboundPreset(layoutId)`: the configuration of the layout with that id, or of
      the first layout when no layout has it; an absent id means `1p-with-battlefield`.
      The deep copy the source makes is the identity on values. */
  function GetRiftboundPreset(layoutId: Option<string>): (c: Config)
    ensures var id := layoutId.GetOr("1p-with-battlefield");
      (exists k :: 0 <= k < |RiftboundLayouts| && RiftboundLayouts[k].id == id && c == RiftboundLayouts[k].config) ||
      ((forall k :: 0 <= k < |RiftboundLayouts| ==> RiftboundLayouts[k].id != id) && c == RiftboundLayouts[0].config)
  {
    match FindLayout(RiftboundLayouts, layoutId.GetOr("1p-with-battlefield"))
    case Some(k) => RiftboundLayouts[k].config
    case None => RiftboundLayouts[0].config
  }

  /** The five preset ids are distinct, so every id selects exactly its own layout. */
  lemma PresetIdsSelectTheirLayout(k: nat)
    requires k < |RiftboundLayouts|
    ensures GetRiftboundPreset(Some(RiftboundLayouts[k].id)) == RiftboundLayouts[k].config
  {
    var ls := RiftboundLayouts;
    assert forall i, j :: 0 <= i < j < |ls| ==> ls[i].id != ls[j].id by {
      assert ls[0].id[0] == '1' && ls[1].id[0] == '1';
      assert ls[0].id[3] != ls[1].id[3];
      assert ls[2].id[0] == '2' && ls[3].id[0] == '2' && ls[4].id[0] == '2';
      assert |ls[2].id| != |ls[3].id| && |ls[2].id| != |ls[4].id| && |ls[3].id| != |ls[4].id|;
    }
  }

  /** Every zone of a preset lies inside its grid. */
  predicate ZonesInGrid(c: Config) {
    c.zones.Some? &&
    forall k :: 0 <= k < |c.zones.value| ==> LayoutSync.InGrid(c.zones.value[k].Grid(), c.gridCols, c.gridRows)
  }

  /** Every layout of the list, and the default custom grid, keeps its zones in the grid. */
  lemma PresetZonesInGrid(k: nat)
    requires k < |RiftboundLayouts|
    ensures ZonesInGrid(RiftboundLayouts[k].config)
    ensures ZonesInGrid(DefaultCustomConfig)
  {
    var c := RiftboundLayouts[k].config;
    if k == 0 {
      assert c == OnePlayerWithBattlefield;
      OnePlayerWithBattlefieldInGrid();
    } else if k == 1 {
      assert c == OnePlayerNoBattlefield;
      OnePlayerNoBattlefieldInGrid();
    } else if k == 2 {
      assert c == TwoPlayerWithBattlefield;
      TwoPlayerWithBattlefieldInGrid();
    } else if k == 3 {
      assert c == TwoPlayerBattlefieldAlt;
      TwoPlayerBattlefieldAltInGrid();
    } else {
      assert c == TwoPlayerBattlefieldAlt2;
      TwoPlayerBattlefieldAlt2InGrid();
    }
    DefaultCustomConfigInGrid();
  }

  lemma OnePlayerWithBattlefieldInGrid()
    ensures ZonesInGrid(OnePlayerWithBattlefield)
  {
  }

  lemma OnePlayerNoBattlefieldInGrid()
    ensures ZonesInGrid(OnePlayerNoBattlefield)
  {
  }

  lemma TwoPlayerWithBattlefieldInGrid()
    ensures ZonesInGrid(TwoPlayerWithBattlefield)
  {
  }

  lemma TwoPlayerBattlefieldAltInGrid()
    ensures ZonesInGrid(TwoPlayerBattlefieldAlt)
  {
  }

  lemma TwoPlayerBattlefieldAlt2InGrid()
    ensures ZonesInGrid(TwoPlayerBattlefieldAlt2)
  {
  }

  lemma DefaultCustomConfigInGrid()
    ensures ZonesInGrid(DefaultCustomConfig)
  {
  }
}
