/** The icon registry: the preset icons, the icons a layout's zones use, the suggestion
    list the icon picker shows, and the checks on a typed or uploaded icon. */
module Icons {
  import opened Strings
  import opened Model

  /** One preset: `title` is the source's `label`. */
  datatype IconPreset = IconPreset(id: string, title: string, icon: string)

  /** The presets in declaration order (`Object.values(ICON_PRESETS)`). */
  const IconPresets: seq<IconPreset> := [
    IconPreset("sword", "Sword", "⚔"),
    IconPreset("shield", "Shield", "\U{1F6E1}"),
    IconPreset("crown", "Crown", "\U{1F451}"),
    IconPreset("star", "Star", "✦"),
    IconPreset("cards", "Cards", "▣"),
    IconPreset("gem", "Gem", "◈"),
    IconPreset("diamond", "Diamond", "◆"),
    IconPreset("circle", "Circle", "●"),
    IconPreset("pawn", "Pawn", "♟"),
    IconPreset("rook", "Rook", "♜"),
    IconPreset("knight", "Knight", "♞"),
    IconPreset("bishop", "Bishop", "♝"),
    IconPreset("trash", "Trash", "✕"),
    IconPreset("x", "X", "✗"),
    IconPreset("check", "Check", "✔"),
    IconPreset("plus", "Plus", "+"),
    IconPreset("fire", "Fire", "\U{1F525}"),
    IconPreset("water", "Water", "\U{1F4A7}"),
    IconPreset("leaf", "Leaf", "\U{1F343}"),
    IconPreset("gear", "Gear", "⚙"),
    IconPreset("empty", "Empty", "")
  ]

  /** `getAllIcons()`: the presets as a flat list, the blank one last. */
  function GetAllIcons(): (r: seq<IconPreset>)
    ensures |r| == 21 && r[0].id == "sword" && r[20] == IconPreset("empty", "Empty", "")
    ensures forall k :: 0 <= k < 20 ==> |r[k].icon| == 1
  {
    IconPresets
  }

  /** `Object.values(ICON_PRESETS).find((p) => p.icon === icon)`. */
  function FindPreset(ps: seq<IconPreset>, icon: string): (r: Option<nat>)
    ensures r.Some? ==> r.value < |ps| && ps[r.value].icon == icon
                        && forall k :: 0 <= k < r.value ==> ps[k].icon != icon
    ensures r.None? <==> forall k :: 0 <= k < |ps| ==> ps[k].icon != icon
  {
    if ps == [] then None
    else if ps[0].icon == icon then Some(0)
    else match FindPreset(ps[1..], icon)
      case None => None
      case Some(k) => Some(k + 1)
  }

  predicate IsPresetIcon(icon: string) {
    FindPreset(IconPresets, icon).Some?
  }

  // ---------------------------------------------------------------- used icons

  /** The icons of `zones` in the order a `Set` collects them: each non-empty icon at
      its first occurrence. */
  function UsedIcons(zones: seq<Zone>): seq<string>
  {
    if zones == [] then []
    else
      var before := UsedIcons(zones[..|zones| - 1]);
      var icon := zones[|zones| - 1].icon;
      if icon != "" && icon !in before then before + [icon] else before
  }

  ghost predicate NoDuplicates(s: seq<string>) {
    forall i, j :: 0 <= i < j < |s| ==> s[i] != s[j]
  }

  ghost predicate UsedIn(zones: seq<Zone>, icon: string) {
    exists k :: 0 <= k < |zones| && zones[k].icon == icon
  }

  /** Every occurrence of `b` in `zones` comes after some occurrence of `a`. */
  ghost predicate SeenBefore(zones: seq<Zone>, a: string, b: string) {
    forall k :: 0 <= k < |zones| && zones[k].icon == b ==>
      exists m :: 0 <= m < k && zones[m].icon == a
  }

  /** `getUsedIcons(zones)` lists every non-empty icon of the zones and nothing else. */
  lemma {:induction false} UsedIconsMembers(zones: seq<Zone>)
    ensures forall s :: s in UsedIcons(zones) <==> s != "" && UsedIn(zones, s)
    decreases |zones|
  {
    if zones != [] {
      var n := |zones|;
      var init := zones[..n - 1];
      UsedIconsMembers(init);
      var before := UsedIcons(init);
      var icon := zones[n - 1].icon;
      forall s ensures s in UsedIcons(zones) <==> s != "" && UsedIn(zones, s) {
        if s != "" && UsedIn(zones, s) && s != icon {
          var k :| 0 <= k < n && zones[k].icon == s;
          assert init[k] == zones[k];
        }
        if s in before {
          var k :| 0 <= k < n - 1 && init[k].icon == s;
          assert zones[k] == init[k];
        }
      }
    }
  }

  /** ... each of them once ... */
  lemma {:induction false} UsedIconsAreDistinct(zones: seq<Zone>)
    ensures NoDuplicates(UsedIcons(zones))
    decreases |zones|
  {
    if zones != [] {
      UsedIconsAreDistinct(zones[..|zones| - 1]);
    }
  }

  /** ... and in the order of their first occurrence. */
  lemma {:induction false} UsedIconsInOrder(zones: seq<Zone>)
    ensures forall i, j :: 0 <= i < j < |UsedIcons(zones)| ==>
              SeenBefore(zones, UsedIcons(zones)[i], UsedIcons(zones)[j])
    decreases |zones|
  {
    if zones != [] {
      var n := |zones|;
      var init := zones[..n - 1];
      UsedIconsInOrder(init);
      UsedIconsMembers(init);
      var before := UsedIcons(init);
      var u := UsedIcons(zones);
      forall i, j | 0 <= i < j < |u|
        ensures SeenBefore(zones, u[i], u[j])
      {
        assert u[i] == before[i] && u[i] in before;
        var ki :| 0 <= ki < n - 1 && init[ki].icon == u[i];
        assert zones[ki] == init[ki];
        forall k | 0 <= k < n && zones[k].icon == u[j]
          ensures exists m :: 0 <= m < k && zones[m].icon == u[i]
        {
          if k < n - 1 && j < |before| {
            assert init[k] == zones[k];
            assert SeenBefore(init, before[i], before[j]);
            var m :| 0 <= m < k && init[m].icon == before[i];
            assert zones[m] == init[m];
          }
        }
      }
    }
  }

  /** `getUsedIcons(zones)`. */
  method GetUsedIcons(zones: seq<Zone>) returns (used: seq<string>)
    ensures used == UsedIcons(zones)
  {
    used := [];
    for i := 0 to |zones|
      invariant used == UsedIcons(zones[..i])
    {
      assert zones[..i + 1][..i] == zones[..i];
      var icon := zones[i].icon;
      if icon != "" && icon !in used {
        used := used + [icon];
      }
    }
    assert zones[..|zones|] == zones;
  }

  // ---------------------------------------------------------------- suggestions

  /** One entry of the picker; presets carry `isCustom == false` (the source leaves the
      key out). */
  datatype Suggestion = Suggestion(id: string, title: string, icon: string, isCustom: bool)

  function CustomSuggestion(icon: string): Suggestion {
    Suggestion("custom-" + icon, icon + " (used)", icon, true)
  }

  function PresetSuggestion(p: IconPreset): Suggestion {
    Suggestion(p.id, p.title, p.icon, false)
  }

  /** A custom entry for every used icon that is not a preset, in order. */
  function CustomSuggestions(used: seq<string>): seq<Suggestion>
  {
    if used == [] then []
    else
      var before := CustomSuggestions(used[..|used| - 1]);
      var icon := used[|used| - 1];
      if icon != "" && !IsPresetIcon(icon) then before + [CustomSuggestion(icon)] else before
  }

  function PresetSuggestions(): (r: seq<Suggestion>)
    ensures |r| == |IconPresets|
    ensures forall k :: 0 <= k < |r| ==> r[k] == PresetSuggestion(IconPresets[k])
  {
    seq(|IconPresets|, k requires 0 <= k < |IconPresets| => PresetSuggestion(IconPresets[k]))
  }

  /** `getIconSuggestions(zones)`. */
  method GetIconSuggestions(zones: seq<Zone>) returns (suggestions: seq<Suggestion>)
    ensures suggestions == CustomSuggestions(UsedIcons(zones)) + PresetSuggestions()
  {
    var used := GetUsedIcons(zones);
    suggestions := [];
    for i := 0 to |used|
      invariant suggestions == CustomSuggestions(used[..i])
    {
      assert used[..i + 1][..i] == used[..i];
      var icon := used[i];
      if icon != "" && FindPreset(IconPresets, icon).None? {
        suggestions := suggestions + [CustomSuggestion(icon)];
      }
    }
    assert used[..|used|] == used;
    suggestions := suggestions + PresetSuggestions();
  }

  /** Every custom entry is a flagged suggestion for a non-empty, non-preset icon of
      the list ... */
  lemma {:induction false} CustomSuggestionsAreCustom(used: seq<string>)
    ensures forall k :: 0 <= k < |CustomSuggestions(used)| ==>
              CustomSuggestions(used)[k] == CustomSuggestion(CustomSuggestions(used)[k].icon)
              && CustomSuggestions(used)[k].icon in used
              && CustomSuggestions(used)[k].icon != ""
              && !IsPresetIcon(CustomSuggestions(used)[k].icon)
    decreases |used|
  {
    if used != [] {
      var init := used[..|used| - 1];
      CustomSuggestionsAreCustom(init);
      assert forall s :: s in init ==> s in used;
    }
  }

  /** ... every such icon of the list has an entry ... */
  lemma {:induction false} CustomSuggestionsCover(used: seq<string>)
    ensures forall icon :: icon in used && icon != "" && !IsPresetIcon(icon) ==>
              CustomSuggestion(icon) in CustomSuggestions(used)
    decreases |used|
  {
    if used != [] {
      var n := |used|;
      CustomSuggestionsCover(used[..n - 1]);
      assert used == used[..n - 1] + [used[n - 1]];
    }
  }

  /** ... and a list without repeats gives each icon one entry. */
  lemma {:induction false} CustomSuggestionsAreDistinct(used: seq<string>)
    requires NoDuplicates(used)
    ensures forall i, j :: 0 <= i < j < |CustomSuggestions(used)| ==>
              CustomSuggestions(used)[i].icon != CustomSuggestions(used)[j].icon
    decreases |used|
  {
    if used != [] {
      var n := |used|;
      var init := used[..n - 1];
      assert NoDuplicates(init);
      CustomSuggestionsAreDistinct(init);
      CustomSuggestionsAreCustom(init);
      assert used[n - 1] !in init;
      var before := CustomSuggestions(init);
      var cs := CustomSuggestions(used);
      forall i, j | 0 <= i < j < |cs| ensures cs[i].icon != cs[j].icon {
        if j >= |before| {
          assert cs[i] == before[i];
        }
      }
    }
  }

  /** The suggestion list ends with every preset exactly once, in declaration order and
      unflagged; everything before them is a custom entry for a zone icon that is no
      preset, one per such icon. */
  lemma SuggestionsShape(zones: seq<Zone>)
    ensures var r := CustomSuggestions(UsedIcons(zones)) + PresetSuggestions();
            |r| >= |IconPresets| && r[|r| - |IconPresets|..] == PresetSuggestions()
    ensures var cs := CustomSuggestions(UsedIcons(zones));
            forall k :: 0 <= k < |cs| ==>
              cs[k].isCustom && cs[k].id == "custom-" + cs[k].icon
              && !IsPresetIcon(cs[k].icon) && cs[k].icon != "" && UsedIn(zones, cs[k].icon)
    ensures var cs := CustomSuggestions(UsedIcons(zones));
            forall i, j :: 0 <= i < j < |cs| ==> cs[i].icon != cs[j].icon
    ensures forall k :: 0 <= k < |zones| && zones[k].icon != "" && !IsPresetIcon(zones[k].icon) ==>
              CustomSuggestion(zones[k].icon) in CustomSuggestions(UsedIcons(zones))
  {
    UsedIconsMembers(zones);
    UsedIconsAreDistinct(zones);
    CustomSuggestionsAreCustom(UsedIcons(zones));
    CustomSuggestionsCover(UsedIcons(zones));
    CustomSuggestionsAreDistinct(UsedIcons(zones));
  }

  // ---------------------------------------------------------------- validation

  /** The argument of `validateIcon`: anything that is not a string, or a string. */
  datatype IconInput = NotAString | Text(s: string)

  /** The result object: `isImage` and `isText` are `false` where the source omits
      them. */
  datatype IconCheck = IconCheck(valid: bool, error: Option<string>, isImage: bool, isText: bool)

  /** `validateIcon(icon)`. */
  function ValidateIcon(input: IconInput): (r: IconCheck)
    ensures r.valid <==> input.Text?
    ensures r.error.Some? <==> !r.valid
    ensures !r.valid ==> r.error == Some("Icon must be a string")
    ensures r.isImage <==> input.Text? && StartsWith(input.s, "data:image/")
    ensures r.isText <==> input.Text? && input.s != "" && !StartsWith(input.s, "data:image/")
    ensures input == Text("") ==> r == IconCheck(true, None, false, false)
  {
    match input
    case NotAString => IconCheck(false, Some("Icon must be a string"), false, false)
    case Text(s) =>
      if s == "" then IconCheck(true, None, false, false)
      else if StartsWith(s, "data:image/") then IconCheck(true, None, true, false)
      else IconCheck(true, None, false, true)
  }

  /** What an uploaded file tells the validator: its MIME type and its size in bytes. */
  datatype FileInfo = FileInfo(mimeType: string, size: int)

  const MaxIconBytes: int := 2 * 1024 * 1024

  datatype UploadCheck = UploadCheck(valid: bool, error: Option<string>)

  /** `validateIconImageUpload(file)`: the checks run in order, and the first that fails
      names the error. */
  function ValidateIconImageUpload(file: Option<FileInfo>): (r: UploadCheck)
    ensures r.valid <==> file.Some? && StartsWith(file.value.mimeType, "image/")
                         && file.value.size <= MaxIconBytes
    ensures r.error.Some? <==> !r.valid
    ensures file.None? ==> r.error == Some("No file selected")
    ensures file.Some? && !StartsWith(file.value.mimeType, "image/") ==>
              r.error == Some("File must be an image")
    ensures file.Some? && StartsWith(file.value.mimeType, "image/") && file.value.size > MaxIconBytes ==>
              r.error == Some("Image too large (max 2MB)")
  {
    match file
    case None => UploadCheck(false, Some("No file selected"))
    case Some(f) =>
      if !StartsWith(f.mimeType, "image/") then UploadCheck(false, Some("File must be an image"))
      else if f.size > MaxIconBytes then UploadCheck(false, Some("Image too large (max 2MB)"))
      else UploadCheck(true, None)
  }

  /** The limit is inclusive: an image of exactly 2 MiB passes and one byte more does not. */
  lemma UploadLimitIsInclusive(mimeType: string)
    requires StartsWith(mimeType, "image/")
    ensures ValidateIconImageUpload(Some(FileInfo(mimeType, 2097152))).valid
    ensures !ValidateIconImageUpload(Some(FileInfo(mimeType, 2097153))).valid
  {
  }
}
