# TCG Game Mats — layout core in Dafny

This project models the layout and configuration logic behind TCG-Game-Mats. The app draws printable play-mat overlays for trading card games. Four pieces are modelled, each with proofs:

- **Mirrored two-player synchroniser** (`LayoutSync`). A layout whose zone ids start with `p1_` and `p2_` has a partner for every zone. An edit to one zone, or to one of two score tracks, is carried over to the partner. Geometry is turned by 180 degrees, `upsideDown` is negated, content is copied, and the track position and `x` are reflected.
- **Rules-text builder** (`Rules`). Free-form rule texts are bound to zones:
  - percentages are clamped;
  - blank entries and two template entries seed the list;
  - `applyEntries` packs the entries, groups them per zone, copies them onto the mirrored partner zone, and switches the legacy zone text off.
- **Renderer geometry**, with every canvas call removed:
  - `Presets`: the mat size and the preset lookup;
  - `Geometry`: weighted rows, side padding beside score tracks, and the zone rectangles;
  - `TextLayout`: greedy word wrapping over an abstract width function, the auto-fit font loop, and line placement;
  - `ScoreTracks`: centre resolution, point clusters, and the even orb column.
- **Icon registry** (`Icons`): the presets, de-duplication of the icons in use, the suggestion list, and the validation of icon strings and uploads.

`Model` holds the records shared by all of them. `Strings` holds the string built-ins the source relies on: `startsWith`, `trim`, `toLowerCase`, `includes`, `split('\n')` and `split(/\s+/)`.

Where the code does something other than what its surrounding description suggests, the model follows the code:

- The weighted row heights apply whenever there is one weight per row. There is no check that the total is positive. With a total of 0, a row of non-zero weight is infinitely tall and a row of weight 0 is NaN (0/0). The model represents this whole case as the `None` of `RowHeights`, and then no zone gets a rectangle.
- A grid with no columns divides the width by 0: `cellW` is infinite (or NaN for a zero width), and a zone at `colStart` 1 has a NaN position (0 times Infinity). The model represents this as the `None` of `ZoneXBand`, and the zone gets no rectangle.
- The even score-track layout computes an orb radius from the step and the lane, but `drawOrb` draws with its own radius and never reads the computed one. `ScoreTracks.DrawScoreTrack` draws as the code does; `ScoreTracks.DrawScoreTrackLaneLimited` is the track drawn with the computed radius (see Findings).

Font metrics (`ctx.measureText`) are a function parameter `measure(size, text)`.

## Model

| member | source | states |
|---|---|---|
| LayoutSync.Clamp | src/domain/layoutSync.js:1-3 | result is at least `min`, at most `max` when `min <= max`, and equals the value inside the range |
| LayoutSync.ClampReal | src/domain/layoutSync.js:1-3 | the same clamp laws on reals |
| LayoutSync.SomeIdStartsWith | src/domain/layoutSync.js:7 | true iff some zone id has the prefix |
| LayoutSync.IsMirroredTwoPlayer | src/domain/layoutSync.js:6-8 | true iff some id starts with `p1_` and some id starts with `p2_` |
| LayoutSync.MirrorZoneId | src/domain/layoutSync.js:10-14 | `None` exactly for ids with neither prefix |
| LayoutSync.MirrorZoneIdSwapsPrefix | src/domain/layoutSync.js:10-14 | `p1_X` maps to `p2_X` and `p2_X` to `p1_X` for every suffix |
| LayoutSync.MirrorZoneIdInvolution | src/domain/layoutSync.js:10-14 | the partner of the partner is the id itself, and differs from it |
| LayoutSync.MirroredZonePosition | src/domain/layoutSync.js:16-23 | start and span are always at least 1, and at most the grid size when the grid is non-empty |
| LayoutSync.MirroredPositionInGrid | src/domain/layoutSync.js:16-23 | for an in-grid zone the start becomes `cols - colStart - colSpan + 2` (same for rows), spans are kept, and the result is in the grid |
| LayoutSync.MirroredPositionInvolution | src/domain/layoutSync.js:16-23 | mirroring an in-grid position twice gives it back |
| LayoutSync.Merge | src/domain/layoutSync.js:26 | the merged zone keeps its id; definitional otherwise: each key the patch has takes the patch's value, every other key the zone's (used by `ZonePatchFrame` and `ZonePatchReachesPartner`) |
| LayoutSync.PatchWhere | src/domain/layoutSync.js:26 | same length; every zone with the id is merged with the patch, every other zone is unchanged, and no id changes |
| LayoutSync.FindZone | src/domain/layoutSync.js:29 | first index with the id, or `None` when no zone has it |
| LayoutSync.MirroredPatch | src/domain/layoutSync.js:34-40 | definitional: the partner's patch built from the already patched source zone, one rule per key; its effect is stated key by key in `ZonePatchReachesPartner` |
| LayoutSync.ApplyMirroredZonePatch | src/domain/layoutSync.js:25-43 | definitional: patch the source, then carry the patch over to its partner when both exist; what it does is stated in `ZonePatchFrame`, `ZonePatchWithoutPartner` and `ZonePatchReachesPartner` |
| LayoutSync.ZonePatchFrame | src/domain/layoutSync.js:25-43 | length, order and ids are kept; every zone with the source id is merged with the patch; every zone that is neither the source nor its partner is unchanged |
| LayoutSync.ZonePatchWithoutPartner | src/domain/layoutSync.js:26-31 | without a partner id, or with no zone of that id, the result is the source zone patched and nothing else |
| LayoutSync.ZonePatchReachesPartner | src/domain/layoutSync.js:34-42 | with the partner present, one rule per key: a geometry key gives the partner the mirrored position of the *patched* source; `upsideDown` gives the negation of the new value; `name`/`icon`/`text` are copied; the partner's other fields are kept. After an in-grid geometry edit, mirroring the partner gives the source back |
| LayoutSync.MirrorTrackPosition | src/domain/layoutSync.js:45-51 | left and right swap, center-left and center-right swap (both directions), and anything else is unchanged |
| LayoutSync.MirrorTrackPositionInvolution | src/domain/layoutSync.js:45-51 | swapping twice is the identity on every string |
| LayoutSync.ApplyMirroredScoreTrackPatch | src/domain/layoutSync.js:53-84 | the number of tracks is kept; what happens to each track is stated in `TrackPatchWithoutPair` and `TrackPatchReachesPartner` |
| LayoutSync.MergeTrack | src/domain/layoutSync.js:54 | definitional: `{ ...track, ...patch }`, each key the patch has taking the patch's value (used by `TrackPatchWithoutPair` and `TrackPatchReachesPartner`) |
| LayoutSync.FollowTrack | src/domain/layoutSync.js:57-81 | definitional: the other track after the edit, one rule per patched key; stated field by field in `TrackPatchReachesPartner` and `MirroredBandRoundTrip` |
| LayoutSync.TrackPatchWithoutPair | src/domain/layoutSync.js:54-55 | unless there are exactly two tracks, only the edited index is patched |
| LayoutSync.TrackPatchReachesPartner | src/domain/layoutSync.js:57-83 | with two tracks the edited one is patched, and the other one changes as follows. `count`/`name`/`orbScale` are copied. A new `position` is swapped and clears `x`. A `yStart`/`yEnd` edit reflects the band, and both ends lie in [0, 1]. `upsideDown` is negated. A patched `x` wins over the reset: it becomes `max(0, width - x)`, or null. `startValue`, `points` and `edgeRunnerXShift` are kept |
| LayoutSync.MirroredBandRoundTrip | src/domain/layoutSync.js:71-74 | a band inside [0, 1] is reflected exactly, and reflecting the reflection gives the band back |
| Rules.FindTemplateText | src/domain/rules.js:65-80 | the text of the first template with the id, or `""` when none has it |
| Rules.TemplateText | src/domain/rules.js:1-32 | `turn` and `combat` give their built-in texts; every other id gives `""` |
| Rules.TemplateTableLookup | src/domain/rules.js:65-80 | looking an id up in the template table gives `TemplateText` |
| Rules.ClampPct | src/domain/rules.js:34-38 | NaN gives the fallback; a number is clamped to [0, 100]; values in that range are unchanged |
| Rules.CreateBlank | src/domain/rules.js:45-57 | the given ids, template `blank`, empty text, 3/6/94/88 percent, font size 0 |
| Rules.FromTemplate | src/domain/rules.js:69-81 | a blank entry with only the template id and its text replaced |
| Rules.BlankEntryIsDroppedUntilFilled | src/domain/rules.js:94-95 | a blank entry is dropped by packing; a template entry is kept iff its template is `turn` or `combat` |
| Rules.TemplateTextsAreNotBlank | src/domain/rules.js:3-31 | both built-in texts survive trimming |
| Rules.FirstNamed | src/domain/rules.js:137 | first zone whose lower-cased name equals the name, or `None` when there is none |
| Rules.FirstContaining | src/domain/rules.js:140 | first zone whose lower-cased name contains the name, or `None` when there is none |
| Rules.PickZoneId | src/domain/rules.js:136-142 | an exact match wins, even over an earlier substring match; failing that, the first substring match; otherwise `""` |
| Rules.BuildDefaultEntries | src/domain/rules.js:61-85 | a `turn` entry for the zone picked by "base", then a `combat` entry for the zone picked by "runes", each only when picked; every entry survives packing |
| Rules.PackedFontSize | src/domain/rules.js:103 | never negative; NaN or a non-positive size gives 0; a positive size is kept |
| Rules.Pack | src/domain/rules.js:97-108 | enabled, trimmed content, percentages clamped with fallbacks 0/0/100/100, font size packed, left/top alignment, no colour |
| Rules.AppendEntry | src/domain/rules.js:154-158 | the list under the zone grows by the entry at its end; every other list is unchanged |
| Rules.GroupInvariantStep | src/domain/rules.js:93-118 | one more grouped entry keeps the map equal to the per-zone lists of the longer entry list |
| Rules.GroupEntry | src/domain/rules.js:94-117 | the per-entry callback keeps that invariant |
| Rules.GroupEntries | src/domain/rules.js:93-118 | the map lists, under every zone, the packed entries that target it, in entry order |
| Rules.ApplyEntries | src/domain/rules.js:87-134 | no zones: the config is unchanged. Otherwise same zones in the same order, `textEntries` is the zone's list (or `[]` when rules are off), the legacy text is switched off, and everything else is unchanged |
| Rules.ListedEntriesArePacked | src/domain/rules.js:93-110 | every listed block is enabled, with percentages in [0, 100] and a non-negative size, and comes from a kept entry that targets the zone |
| Rules.KeptEntryIsListed | src/domain/rules.js:93-110 | every kept entry is listed under its own zone |
| Rules.Selected | src/domain/rules.js:93-117 | definitional: the entries listed under a zone, in entry order; stated in `SelectedAreTargeting`, `KeptEntryIsSelected` and `MirroredZonesSelectAlike` |
| Rules.ListFor | src/domain/rules.js:93-118 | definitional: the packed `Selected` entries; stated in `GroupEntries`, `ListedEntriesArePacked` and `KeptEntryIsListed` |
| Rules.DisabledText | src/domain/rules.js:125-131 | definitional: the zone text switched off, emptied, left and top aligned; used in the ensures of `ApplyEntries` |
| Rules.SelectedAreTargeting | src/domain/rules.js:94-117 | an entry selected for a zone is one of the entries, has a zone and non-blank text, and targets that zone |
| Rules.KeptEntryIsSelected | src/domain/rules.js:94-110 | every kept entry is selected for its own zone |
| Rules.MirroredZonesSelectAlike | src/domain/rules.js:112-117 | in a mirrored layout a zone and its partner select the same entries |
| Rules.PackAllConcat | src/domain/rules.js:97-108 | packing the entries of a concatenation packs each part in turn |
| Rules.MirroredZonesShareEntries | src/domain/rules.js:112-117 | in a mirrored layout a zone and its partner get identical lists |
| Rules.UnmirroredListIsOwnEntries | src/domain/rules.js:110-117 | without mirroring, a zone lists only entries bound to it |
| Model.ZoneText | src/overlays/renderer.js:11 | the default zone text is disabled and empty, with no position and font size 0 |
| Presets.FindLayout | src/overlays/renderer.js:187 | first layout with the id, or `None` when there is none |
| Presets.GetRiftboundPreset | src/overlays/renderer.js:186-189 | the config of the layout with the id (default `1p-with-battlefield`), or of the first layout for an unknown id |
| Presets.PresetIdsSelectTheirLayout | src/overlays/renderer.js:174-189 | each of the five preset ids selects its own layout |
| Presets.PresetZonesInGrid | src/overlays/renderer.js:13-205 | every zone of every preset, and of the default custom layout, lies inside its grid |
| Geometry.GetMatSize | src/overlays/renderer.js:772-776 | a canvas width or height when given, 2450 or 1450 for each missing one |
| Geometry.TracksOf | src/overlays/renderer.js:664-666 | definitional: a non-empty `scoreTracks`; otherwise the single `scoreTrack`; otherwise none |
| Geometry.RowStarts | src/overlays/renderer.js:677-679 | start `i` is the top plus the sum of the heights before row `i` |
| Geometry.RowHeights | src/overlays/renderer.js:668-684 | one weight per row: each height is `v / total * (matH - 60)`, and `None` when the total is 0. Otherwise `gridRows` equal heights |
| Geometry.RowHeightsFillArea | src/overlays/renderer.js:668-684 | the heights add up to `matH - 60` |
| Geometry.DistributeRows | src/overlays/renderer.js:673-684 | the heights of `RowHeights`, with one running prefix-sum start from 30 per row |
| Geometry.RowsAreContiguous | src/overlays/renderer.js:677-683 | each row starts where the previous one ends, and the last ends at `matH - 30` |
| Geometry.SideForTrack | src/overlays/renderer.js:688-692 | left and right tracks give their side, swapped when mirrored; other positions give none |
| Geometry.OverlapsTrackY | src/overlays/renderer.js:694-700 | definitional: the track's band, in either order and 0.08/0.92 by default, meets the open band from `y0` to `y1`; used by `SidePadWidens` |
| Geometry.SidePad | src/overlays/renderer.js:709-716 | the padding is 30 or 105; which one is stated in `SidePadWidens` |
| Geometry.SidePadWidens | src/overlays/renderer.js:694-716 | 105 iff some track on that side strictly overlaps the zone's vertical band, else 30 |
| Geometry.ComputePads | src/overlays/renderer.js:709-716 | the loop's left and right pads are the `SidePad` of each side |
| Geometry.MirroredPadsSwap | src/overlays/renderer.js:688-716 | mirroring swaps the left and right pads |
| Geometry.SliceEnd | src/overlays/renderer.js:705 | the end of a `slice` is capped at the length |
| Geometry.ZoneYBand | src/overlays/renderer.js:703-707 | `None` exactly for a start row outside the grid; otherwise the top is the row start plus half the gap. The height is the spanned rows minus the gap for a span inside the grid; a span past the last row stops there; an empty span is `-gap` tall; a negative end counts back from the last row, as `slice` does |
| Geometry.ZoneXBand | src/overlays/renderer.js:718-722 | `None` for zero columns; otherwise `x = padL + (colStart - 1) * cellW + gap/2` and `w = colSpan * cellW - gap` |
| Geometry.ZoneStaysInsidePadding | src/overlays/renderer.js:718-722 | an in-grid zone starts at least `gap/2` after the left pad and ends at least `gap/2` before the right pad |
| Geometry.ZoneXBandMirrors | src/overlays/renderer.js:718-722 | the rotated column start with swapped pads gives the band reflected about the vertical centre line, with the same width |
| Geometry.ZoneRectOf | src/overlays/renderer.js:702-722 | definitional: the zone's band from `ZoneYBand`, its pads from `SidePad` and its band from `ZoneXBand`, or `None`; its bounds are stated in `ZoneRectInsidePadding` and `ZoneRectInsideRows` |
| Geometry.ZoneRect | src/overlays/renderer.js:702-722 | the rectangle of `ZoneRectOf` |
| Geometry.ZoneRectInsidePadding | src/overlays/renderer.js:702-722 | an in-grid zone gets a rectangle, and it stays `30 + gap/2` clear of both sides of the mat |
| Geometry.ZoneRectInsideRows | src/overlays/renderer.js:668-707 | with weights that are not negative and a mat at least 60 px high, an in-grid zone's rectangle stays `30 + gap/2` clear of the top and the bottom of the mat |
| Geometry.ZoneYBandInsideArea | src/overlays/renderer.js:703-707 | rows laid end to end from 30 with no negative height put a zone's band within the grid area, `gap/2` clear of either end |
| Geometry.RowsNotNegative | src/overlays/renderer.js:668-684 | with weights that are not negative and a mat at least 60 px high, no row height is negative |
| Geometry.EqualRowsBandHeight | src/overlays/renderer.js:680-705 | with equal rows, a zone is `rowSpan` row heights tall less `gap`, so it has a positive height whenever `gap` is less than that |
| Geometry.XBandHasWidth | src/overlays/renderer.js:718-722 | with both pads at most 105, a zone is at least `colSpan` cells wide with the widest pads less `gap`, so it has a positive width whenever `gap` is less than that |
| Geometry.LayoutZones | src/overlays/renderer.js:702-730 | one rectangle per zone, built from the distributed rows and that zone's pads |
| Strings.Trim | src/domain/rules.js:94 | the result is empty iff the input is all white space; otherwise it starts and ends with a non-space |
| Strings.TrimCutsOnlySpace | src/domain/rules.js:94 | the result is a stretch of the input with only white space before and after it |
| Strings.ToLower | src/domain/rules.js:137 | the same length, with each ASCII capital lowered |
| Strings.SplitWs | src/overlays/renderer.js:314 | at least one piece, no piece contains white space, and interior pieces are non-empty |
| Strings.SplitWsKeepsWords | src/overlays/renderer.js:314 | the words of the pieces, piece after piece, are the words of the input (its maximal runs without white space), in order |
| Strings.SplitWsEnds | src/overlays/renderer.js:314 | the first piece is empty iff the input is empty or starts with white space; the last iff it is empty or ends with white space |
| Strings.JoinKeepsWords | src/overlays/renderer.js:312 | joining pieces with a white-space character gives a string whose words are the pieces' words |
| Strings.WordsSplitAt | src/overlays/renderer.js:314 | a white-space character splits the words of a string into the words before it and those after it |
| Strings.Split | src/overlays/renderer.js:312 | the pieces contain no separator and join back into the input |
| TextLayout.Clamp01 | src/overlays/renderer.js:432-434 | the result is in [0, 1] and equals the input inside that range |
| TextLayout.WrapLine | src/overlays/renderer.js:315-325 | definitional: the greedy word loop as a recursion; what it emits is stated in `WrapLineLines`, `WrapLineWords` and `WrapLineKeepsWords` |
| TextLayout.WrapParagraph | src/overlays/renderer.js:313-325 | definitional: an empty paragraph is one empty line, any other is `WrapLine` of its pieces; stated in `WrapParagraphWords` |
| TextLayout.WrapParagraphs | src/overlays/renderer.js:312-326 | definitional: the paragraphs' lines, one after another; stated in `WrapParagraphsWords` |
| TextLayout.Wrap | src/overlays/renderer.js:310-328 | definitional: `wrapText` on the `'\n'` pieces; stated in `WrapKeepsWords`, `WrappedLinesFit` and `WrapText` |
| TextLayout.WrapLineLines | src/overlays/renderer.js:315-325 | every emitted line is non-empty and either fits, or is a single word or the carried line |
| TextLayout.WrapWords | src/overlays/renderer.js:314-325 | the word loop gives the greedy wrap of the words |
| TextLayout.WrapText | src/overlays/renderer.js:310-328 | the paragraph loop gives `Wrap` of the text |
| TextLayout.WrappedLinesFit | src/overlays/renderer.js:310-328 | every wrapped line is an empty paragraph, fits the width, or contains no space (one word) |
| TextLayout.WrapLineKeepsWords | src/overlays/renderer.js:314-325 | when no word is empty, joining the emitted lines with spaces gives back the words in order, so no word is split or lost |
| TextLayout.WrapLineWords | src/overlays/renderer.js:314-325 | for any pieces (empty ones included), the words of the emitted lines are those of the carried line followed by those of the pieces |
| TextLayout.WrapParagraphWords | src/overlays/renderer.js:313-325 | the lines of one paragraph hold the paragraph's words, in order |
| TextLayout.WrapParagraphsWords | src/overlays/renderer.js:312-326 | the lines of the paragraphs hold the paragraphs' words, in order |
| TextLayout.WrapKeepsWords | src/overlays/renderer.js:310-328 | the words of the wrapped lines, line after line, are the words of the text, in order: nothing is lost, split or added |
| TextLayout.TotalHeight | src/overlays/renderer.js:353-362 | never negative for non-negative line heights |
| TextLayout.MaxLineBounds | src/overlays/renderer.js:354-362 | the widest line is at least 0, bounds every non-empty line, and is 0 or the width of some line |
| TextLayout.Layout | src/overlays/renderer.js:348-364 | definitional: `layoutAtSize(size)` as a value; stated in `LayoutShape` and `LayoutAtSize` |
| TextLayout.Fits | src/overlays/renderer.js:367 | definitional: the loop's test, no taller than `maxH` and no line wider than `maxW`; used by `FitSize` |
| TextLayout.LayoutShape | src/overlays/renderer.js:348-364 | definitional: line height `1.08·size`, empty-line height `0.55·size`, the total height and the widest line |
| TextLayout.MeasureLines | src/overlays/renderer.js:353-362 | the `forEach` gives the total height and the widest line |
| TextLayout.LayoutAtSize | src/overlays/renderer.js:348-364 | the layout at one size is `Layout` |
| TextLayout.Shrink | src/overlays/renderer.js:368 | the shrunk size is at least 10 |
| TextLayout.FitSize | src/overlays/renderer.js:366-370 | the final size is in [10, start]; above 10 the text fits; a text that already fits keeps its size |
| TextLayout.FitText | src/overlays/renderer.js:366-371 | the `while` loop stops at `FitSize`, with the layout at that size |
| TextLayout.PadX | src/overlays/renderer.js:336 | the horizontal padding is the larger of 16 and 5% of the width |
| TextLayout.PadY | src/overlays/renderer.js:337 | the vertical padding is the larger of 16 and 8% of the height |
| TextLayout.AnchorX | src/overlays/renderer.js:379-388 | definitional: the left, right or centre anchor, negated under a mirrored context; stated in `MirroredAnchorReflects` |
| TextLayout.BlockTop | src/overlays/renderer.js:390-394 | definitional: the top, bottom or middle start of the block; stated in `BlockTopAligns` |
| TextLayout.MirroredAnchorReflects | src/overlays/renderer.js:379-388 | the mirrored anchor is the negated anchor of the flipped alignment, and flipping twice is the identity |
| TextLayout.BlockTopAligns | src/overlays/renderer.js:390-394 | top starts at the top padding, bottom ends at the bottom padding, middle is centred |
| TextLayout.Placements | src/overlays/renderer.js:395-403 | one placed line per non-empty line |
| TextLayout.PlacementsWithinBlock | src/overlays/renderer.js:395-403 | each placed line is non-empty and lies between the top and the top plus the total height |
| TextLayout.StartSize | src/overlays/renderer.js:341-342 | the start size is at least 10 |
| TextLayout.SizeFor | src/overlays/renderer.js:341-370 | the fitted size is at least 10 |
| TextLayout.PlaceLines | src/overlays/renderer.js:395-403 | the `forEach` gives `Placements` |
| TextLayout.Draw | src/overlays/renderer.js:330-405 | definitional: `drawTextInRect` as a value; stated in `DrawTextInRect`, `FittedTextStaysInside` and `BlockStaysInside` |
| TextLayout.DrawTextInRect | src/overlays/renderer.js:330-405 | nothing is drawn iff the text is disabled or empty; otherwise the drawing is `Draw` |
| TextLayout.BlockStaysInside | src/overlays/renderer.js:390-403 | a block that fits the inner height keeps every placed line inside the padded rectangle |
| TextLayout.FittedTextStaysInside | src/overlays/renderer.js:336-403 | above the 10 px floor, every line lies inside the vertical padding and every non-empty line fits the inner width |
| TextLayout.EntryRect | src/overlays/renderer.js:419-426 | width and height are at least 8, and the corner lies inside the zone |
| TextLayout.EntryRectInsideZone | src/overlays/renderer.js:419-426 | without percentages the entry covers the whole zone; when `x + w` fractions stay within 1 and the width is above the 8 px floor, the entry ends inside the zone |
| TextLayout.EntriesOf | src/overlays/renderer.js:408-410 | without `textEntries` the zone text is the one entry |
| TextLayout.DrawEntry | src/overlays/renderer.js:412-428 | definitional: one entry drawn in its own rectangle; stated in `DrawZoneTexts` and `EntryRectInsideZone` |
| TextLayout.DrawZoneTexts | src/overlays/renderer.js:407-430 | one drawing per entry, each in its own rectangle |
| ScoreTracks.SideLane | src/overlays/renderer.js:456-465 | definitional: the lane between the edge inset and the widened padding on each side, at least 24 wide; stated in `LanesMirror` |
| ScoreTracks.PosToCx | src/overlays/renderer.js:467-474 | definitional: the centre line before mirroring; stated in `CentreResolution` |
| ScoreTracks.TrackCx | src/overlays/renderer.js:475-477 | definitional: the centre line reflected on a mirrored mat and shifted by an edge runner; stated in `MirroredCentreSwapsSides` |
| ScoreTracks.LanesMirror | src/overlays/renderer.js:456-465 | the right lane is the left lane reflected, both at least 24 wide and centred between their edges |
| ScoreTracks.CentreResolution | src/overlays/renderer.js:467-474 | definitional: a numeric `x` wins; otherwise lane centres, `0.47·matW`, `0.53·matW`, or 52 |
| ScoreTracks.MirroredCentreSwapsSides | src/overlays/renderer.js:467-477 | on a mirrored mat a left track sits at the unmirrored right centre, and so on for each position |
| ScoreTracks.DrawOrbRadius | src/overlays/renderer.js:479-481 | the radius actually drawn is in [11, 38] |
| ScoreTracks.ResolvedXs | src/overlays/renderer.js:504-507 | one resolved x per point |
| ScoreTracks.ResolvedYs | src/overlays/renderer.js:508-510 | one resolved y per point |
| ScoreTracks.ClusterOrbs | src/overlays/renderer.js:501-532 | one orb per point |
| ScoreTracks.ClusterIsRigid | src/overlays/renderer.js:523-529 | pairwise offsets are preserved: x offsets are reversed when mirrored, y offsets are kept |
| ScoreTracks.TargetCx | src/overlays/renderer.js:516 | definitional: an explicit `x`, else the cluster's own centre; stated in `ClusterCentroid` |
| ScoreTracks.TargetCy | src/overlays/renderer.js:518-521 | definitional: the middle of `yStart`..`yEnd`, or whichever of the two the track has, else the cluster's own centre; stated in `ClusterCentroid` |
| ScoreTracks.ClusterCentroid | src/overlays/renderer.js:514-529 | the orbs' centroid is the target x (reflected when mirrored) and the target y |
| ScoreTracks.SpanOf | src/overlays/renderer.js:536-539 | the span is ordered |
| ScoreTracks.Avail | src/overlays/renderer.js:540 | at least 20 |
| ScoreTracks.Step | src/overlays/renderer.js:541 | in (0, 140] |
| ScoreTracks.EvenOrbRadius | src/overlays/renderer.js:542-548 | the step- and lane-limited radius is in [11, 38] |
| ScoreTracks.StartY | src/overlays/renderer.js:549-552 | definitional: the y of slot 0, centring the column in the span; stated in `EvenOrbsInsideSpan` |
| ScoreTracks.Slot | src/overlays/renderer.js:555 | definitional: count down from the bottom unless upside down; stated in `SlotsArePermutation` and `UpsideDownReverses` |
| ScoreTracks.EvenOrb | src/overlays/renderer.js:554-558 | definitional: orb `i` at its slot on the centre line, labelled `startValue + i`; stated in `EvenOrbs`, `EvenOrbsInsideSpan` and `UpsideDownReverses` |
| ScoreTracks.EvenOrbs | src/overlays/renderer.js:554-559 | `count` orbs (none for a non-positive count); orb `i` has label `startValue + i` at its slot |
| ScoreTracks.SlotsArePermutation | src/overlays/renderer.js:555 | slots stay in range and distinct orbs get distinct slots |
| ScoreTracks.UpsideDownReverses | src/overlays/renderer.js:554-557 | upside down, orb `i` takes the place orb `count-1-i` has otherwise, and both keep the label `startValue + i` |
| ScoreTracks.ColumnFitsAvail | src/overlays/renderer.js:540-552 | the column of `count` steps fits the available height |
| ScoreTracks.EvenOrbsInsideSpan | src/overlays/renderer.js:549-556 | every orb centre lies inside the span, and the column is centred on it |
| ScoreTracks.DrawnRadiusOverlaps | src/overlays/renderer.js:479-481 | for a concrete 9-orb track, 40 px apart, the drawn orbs overlap while the computed radius separates them |
| ScoreTracks.EvenRadiusSeparates | src/overlays/renderer.js:541-548 | with a scale of at most 1 and a step of at least 27, neighbouring orbs of the computed radius do not overlap |
| ScoreTracks.NameLabelOf | src/overlays/renderer.js:561-585 | definitional: no label for an empty name, else the label beside the column; stated in `NameLabelPlacement` |
| ScoreTracks.NameLabelPlacement | src/overlays/renderer.js:561-585 | the label is level with the middle of the span; it is 26 px right of a left track and 26 px left of a right track; mirroring negates its x and flips its alignment |
| ScoreTracks.DrawScoreTrack | src/overlays/renderer.js:438-593 | points give the translated cluster and no label; otherwise the even column, drawn with `drawOrb`'s own radius, and the name label |
| ScoreTracks.DrawScoreTrackLaneLimited | src/overlays/renderer.js:438-593 | the same track with the even column drawn with the step- and lane-limited radius; with a scale of at most 1 and a step of at least 27, neighbouring orbs do not overlap |
| ScoreTracks.DrawTrackWith | src/overlays/renderer.js:499-559 | points give the translated cluster; otherwise `count` orbs in their slots with the given radius, and the name label |
| Icons.GetAllIcons | src/utils/icons.js:40-42 | 21 presets, `sword` first and the blank `empty` last; the others are one character each |
| Icons.FindPreset | src/utils/icons.js:62 | first preset with the icon, or `None` when no preset has it |
| Icons.UsedIcons | src/utils/icons.js:45-53 | definitional: the non-empty icons at their first occurrence; stated in `UsedIconsMembers`, `UsedIconsAreDistinct` and `UsedIconsInOrder` |
| Icons.UsedIconsMembers | src/utils/icons.js:45-53 | an icon is listed iff it is non-empty and some zone has it |
| Icons.UsedIconsAreDistinct | src/utils/icons.js:45-53 | no icon is listed twice |
| Icons.UsedIconsInOrder | src/utils/icons.js:45-53 | icons are listed in the order of their first occurrence among the zones |
| Icons.GetUsedIcons | src/utils/icons.js:45-53 | the `Set` loop gives `UsedIcons` |
| Icons.PresetSuggestions | src/utils/icons.js:73 | one entry per preset, in declaration order |
| Icons.GetIconSuggestions | src/utils/icons.js:56-76 | the custom entries of the used icons, followed by the presets |
| Icons.CustomSuggestions | src/utils/icons.js:60-70 | definitional: a custom entry for every used icon that is not a preset, in order; stated in `CustomSuggestionsAreCustom`, `CustomSuggestionsCover` and `CustomSuggestionsAreDistinct` |
| Icons.CustomSuggestionsAreCustom | src/utils/icons.js:60-70 | each custom entry is `custom-<icon>`, flagged, for a listed icon that is non-empty and no preset |
| Icons.CustomSuggestionsCover | src/utils/icons.js:60-70 | every listed icon that is non-empty and no preset gets a custom entry |
| Icons.CustomSuggestionsAreDistinct | src/utils/icons.js:60-70 | a list without repeats gives each icon at most one custom entry |
| Icons.SuggestionsShape | src/utils/icons.js:56-76 | the list ends with every preset once, in order; before them, one custom entry per non-preset zone icon, with no duplicates |
| Icons.ValidateIcon | src/utils/icons.js:79-96 | valid iff a string; a non-string gets the error; `""` has no flag; a `data:image/` prefix gives `isImage`; anything else gives `isText` |
| Icons.ValidateIconImageUpload | src/utils/icons.js:99-111 | valid iff a file with an `image/` type of at most 2 MiB; the errors are checked in order: no file, not an image, too large |
| Icons.UploadLimitIsInclusive | src/utils/icons.js:106-110 | an image of exactly 2 MiB passes and one byte more fails |

## Left out

- All canvas drawing is left out: `rr`, `corners`, `iconLabel`, `drawZonePrimitive`, `withZoneRotation`, `drawOuterBorder`, `applyMirror`, `drawOverlay`, `createOverlayCanvas`, and the `fillText`/`arc` calls. These are calls into the browser 2D context. The model records the coordinates they would receive, as rectangles, orbs, placed lines and labels.
- `ctx.measureText` is left out: font metrics are not visible. It is the parameter `measure(size, text)`, an arbitrary function.
- `RuleEntryFactory.createId` is left out: it reads the clock and a random generator. The generated ids are parameters of `CreateBlank`, `FromTemplate` and `BuildDefaultEntries`.
- `fileToDataUrl` is left out: it is asynchronous and uses `FileReader`.
- `cloneConfig` is left out: the deep copy by JSON round trip is the identity on values.
- Strings.ToLower: lowers ASCII capitals only. The source's `toLowerCase` follows Unicode case mapping.
- Rules.ClampPct: `Number(value)` is modelled as NaN or a finite real. Infinities, and the conversion of arbitrary values to numbers, are not modelled.
- LayoutSync.ApplyMirroredScoreTrackPatch: with exactly two tracks it requires the edited index to be 0 or 1. With another index the source reads the fields of a track that does not exist.
- The `|| 0` and `??` defaults of missing fields in score tracks are folded into `ScoreTrack` with the source's defaults. The exceptions are `yStart`, `yEnd` and `x`: their presence matters, because of `hasOwn` and `typeof x === 'number'`.
- Geometry.LayoutZones: requires the layout to have zones, since the source calls `forEach` on them.
- Floating point is modelled as exact reals: the source's arithmetic has no rounding behaviour that matters here. The values that are not finite are modelled as `None` rather than carried through later arithmetic: a row-weight total of 0 (`RowHeights`), a grid with no columns (`ZoneXBand`) and a start row with no row (`ZoneYBand`).
- Geometry.XBandHasWidth: the width bound is stated for the band between any two paddings of at most 105, which `SidePad` guarantees, rather than on `ZoneRectOf` itself.
- Model.Zone: the zone text is always present. When a zone has neither `textEntries` nor `text`, `drawZoneTexts` draws nothing (src/overlays/renderer.js:408-410). The model gives such a zone its default text, which is disabled: `DrawZoneTexts` then returns one `None` where the source has no entry, and nothing is drawn either way.
- LayoutSync.ZonePatch: a patch has no `id` field, so the model cannot rename a zone. The source's `{ ...zone, ...patch }` (src/domain/layoutSync.js:26) would apply an `id` given in the patch.

## Findings

| source | as written | input that shows it | evidently intended | confidence | as-written member | corrected member |
|---|---|---|---|---|---|---|
| src/overlays/renderer.js:479-481, 542-548 | The even layout clamps an orb radius to the step and the lane (`r`), but `drawOrb` declares its own `r = max(11, min(38, 26·(orbScale or 1)))` and never reads the computed one. | a 9-orb left track with `yStart` 0.3 and `yEnd` 0.62 on a 1000 px high mat: the step is 40 px but the drawn orbs are 52 px across, so neighbours overlap | `drawOrb` draws with the step- and lane-limited radius, so neighbouring orbs do not overlap | medium, not executed | ScoreTracks.DrawScoreTrack, ScoreTracks.DrawOrbRadius, ScoreTracks.DrawnRadiusOverlaps | ScoreTracks.DrawScoreTrackLaneLimited, ScoreTracks.EvenOrbRadius, ScoreTracks.EvenRadiusSeparates |
