/** The rules-text builder: free-form text entries bound to zones, seeded from two
    built-in templates and packed into each zone's `textEntries`, duplicated onto the
    partner zone in a mirrored two-player layout. */
module Rules {
  import opened Strings
  import opened Model
  import LayoutSync

  datatype Template = Template(id: string, title: string, text: string)   // `title` is the source's `label`

  /** The first line of each built-in text is kept apart so that proofs about the
      texts need only look at their start. */
  const TurnHeading: string := "START OF TURN\n"
  const CombatHeading: string := "YOUR TURN\n"

  const TurnText: string := TurnHeading +
    "A - Awaken: Ready your cards and runes.\nB - Beginning: Start of Turn abilities and Hold points.\nC - Channel: Play two runes.\nD - Draw: Draw 1 from your deck.\n\nSCORING\n- 8 points to win.\n- Maximum 1 point per battlefield per turn.\n- To get the 8th point, hold 1 battlefield OR score them all in one turn."

  const CombatText: string := CombatHeading +
    "- Play cards from hand.\n- Play your champion unit (if not already on the board).\n- Use abilities of cards.\n- Move units to a battlefield.\n\nCOMBAT\n1. Resolve defend and attack triggers.\n2. Starting with the attacker, players may play actions or reactions.\n3. Resolve each right away, unless players play reactions.\n4. Units deal damage, then if attackers survive, they score and conquer."

  /** `RULE_TEMPLATES`, in declaration order. */
  const RuleTemplates: seq<Template> := [
    Template("blank", "Blank", ""),
    Template("turn", "Start Of Turn + Scoring", TurnText),
    Template("combat", "Your Turn + Combat", CombatText)
  ]

  /** `templates.find((t) => t.id === id)?.text ?? ''` */
  function FindTemplateText(templates: seq<Template>, id: string): (t: string)
    ensures (forall k :: 0 <= k < |templates| ==> templates[k].id != id) ==> t == ""
    ensures forall k :: (0 <= k < |templates| && templates[k].id == id &&
                         forall j :: 0 <= j < k ==> templates[j].id != id) ==> t == templates[k].text
  {
    if templates == [] then ""
    else if templates[0].id == id then templates[0].text
    else FindTemplateText(templates[1..], id)
  }

  /** The text a template id stands for: the built-in text, or "" for `blank` and for
      any id that names no template. */
  function TemplateText(id: string): (t: string)
    ensures id == "turn" ==> t == TurnText
    ensures id == "combat" ==> t == CombatText
    ensures id != "turn" && id != "combat" ==> t == ""
  {
    if id == "turn" then TurnText else if id == "combat" then CombatText else ""
  }

  /** Looking an id up in `RULE_TEMPLATES` gives `TemplateText`. */
  lemma TemplateTableLookup(id: string)
    ensures FindTemplateText(RuleTemplates, id) == TemplateText(id)
  {
    var ts := RuleTemplates;
    assert ts[0].id == "blank" && ts[0].text == "";
    assert ts[1].id == "turn" && ts[1].text == TurnText;
    assert ts[2].id == "combat" && ts[2].text == CombatText;
    if id == "blank" {
      assert FindTemplateText(ts, id) == ts[0].text;
    } else if id == "turn" {
      assert FindTemplateText(ts, id) == ts[1].text;
    } else if id == "combat" {
      assert FindTemplateText(ts, id) == ts[2].text;
    }
  }

  /** A JavaScript number as `Number(value)` yields it: NaN for anything that does not
      convert (a missing field, a non-numeric string). */
  datatype Num = NaN | Finite(value: real)

  /** `clampPct(value, fallback)` */
  function ClampPct(v: Num, fallback: real): (r: real)
    ensures v.NaN? ==> r == fallback
    ensures v.Finite? ==> 0.0 <= r <= 100.0
    ensures v.Finite? && 0.0 <= v.value <= 100.0 ==> r == v.value
    ensures v.Finite? && v.value < 0.0 ==> r == 0.0
    ensures v.Finite? && v.value > 100.0 ==> r == 100.0
  {
    match v
    case NaN => fallback
    case Finite(x) => if x < 0.0 then 0.0 else if x > 100.0 then 100.0 else x
  }

  /** A rules-text entry as the editor keeps it. */
  datatype RuleEntry = RuleEntry(
    id: string, zoneId: string, templateId: string, text: string,
    xPct: Num, yPct: Num, wPct: Num, hPct: Num, fontSize: Num)

  /** `RuleEntryFactory.createBlank(zoneId)`, with the generated id passed in. */
  function CreateBlank(id: string, zoneId: string): (e: RuleEntry)
    ensures e.id == id && e.zoneId == zoneId && e.templateId == "blank" && e.text == ""
    ensures e.xPct == Finite(3.0) && e.yPct == Finite(6.0) && e.wPct == Finite(94.0) && e.hPct == Finite(88.0)
    ensures e.fontSize == Finite(0.0)
  {
    RuleEntry(id, zoneId, "blank", "", Finite(3.0), Finite(6.0), Finite(94.0), Finite(88.0), Finite(0.0))
  }

  /** A blank entry for `zoneId` switched to a template: `{ ...createBlank(zoneId),
      templateId, text }` with the template's text. */
  function FromTemplate(id: string, zoneId: string, templateId: string): (e: RuleEntry)
    ensures e == CreateBlank(id, zoneId).(templateId := templateId, text := e.text)
    ensures e.text == TemplateText(templateId)
  {
    CreateBlank(id, zoneId).(templateId := templateId, text := TemplateText(templateId))
  }

  /** A fresh blank entry carries no text, so packing drops it until a template is
      chosen; choosing either built-in template makes it kept, and `blank` does not. */
  lemma BlankEntryIsDroppedUntilFilled(id: string, zoneId: string, templateId: string)
    requires zoneId != ""
    ensures !Kept(CreateBlank(id, zoneId))
    ensures Kept(FromTemplate(id, zoneId, templateId)) <==> templateId == "turn" || templateId == "combat"
  {
    TemplateTextsAreNotBlank();
  }

  lemma TemplateTextsAreNotBlank()
    ensures !AllSpace(TurnText) && !AllSpace(CombatText)
  {
    assert TurnText[0] == TurnHeading[0] == 'S';
    assert CombatText[0] == CombatHeading[0] == 'Y';
  }

  /** The zone name matches the searched name exactly (after lower-casing)... */
  predicate NameIs(z: Zone, name: string) { ToLower(z.name) == name }
  /** ... or merely contains it. */
  predicate NameHas(z: Zone, name: string) { Contains(ToLower(z.name), name) }

  /** First zone whose lower-cased name equals `name`. */
  function FirstNamed(zones: seq<Zone>, name: string): (k: Option<nat>)
    ensures k.Some? ==> k.value < |zones| && NameIs(zones[k.value], name) &&
                        forall j :: 0 <= j < k.value ==> !NameIs(zones[j], name)
    ensures k.None? ==> forall j :: 0 <= j < |zones| ==> !NameIs(zones[j], name)
  {
    if zones == [] then None
    else if NameIs(zones[0], name) then Some(0)
    else match FirstNamed(zones[1..], name)
      case None => None
      case Some(k) => Some(k + 1)
  }

  /** First zone whose lower-cased name contains `name`. */
  function FirstContaining(zones: seq<Zone>, name: string): (k: Option<nat>)
    ensures k.Some? ==> k.value < |zones| && NameHas(zones[k.value], name) &&
                        forall j :: 0 <= j < k.value ==> !NameHas(zones[j], name)
    ensures k.None? ==> forall j :: 0 <= j < |zones| ==> !NameHas(zones[j], name)
  {
    if zones == [] then None
    else if NameHas(zones[0], name) then Some(0)
    else match FirstContaining(zones[1..], name)
      case None => None
      case Some(k) => Some(k + 1)
  }

  /** `pickZoneId(zones, name)`: the id of the first zone named exactly `name`; failing
      that, of the first zone whose name contains it; otherwise "". An exact match wins
      even over a substring match that comes earlier in the list. */
  function PickZoneId(zones: seq<Zone>, name: string): (id: string)
    ensures (exists i :: 0 <= i < |zones| && NameIs(zones[i], name)) ==>
              exists i :: 0 <= i < |zones| && NameIs(zones[i], name) && id == zones[i].id &&
                          forall j :: 0 <= j < i ==> !NameIs(zones[j], name)
    ensures (forall i :: 0 <= i < |zones| ==> !NameIs(zones[i], name)) &&
            (exists i :: 0 <= i < |zones| && NameHas(zones[i], name)) ==>
              exists i :: 0 <= i < |zones| && NameHas(zones[i], name) && id == zones[i].id &&
                          forall j :: 0 <= j < i ==> !NameHas(zones[j], name)
    ensures (forall i :: 0 <= i < |zones| ==> !NameHas(zones[i], name)) ==> id == ""
  {
    match FirstNamed(zones, name)
    case Some(k) => zones[k].id
    case None =>
      match FirstContaining(zones, name)
      case Some(k) => zones[k].id
      case None => ""
  }

  /** `buildDefaultEntries(config)`: an entry with the turn template for the zone picked
      by "base", then one with the combat template for the zone picked by "runes"; the
      two generated entry ids are passed in. */
  method BuildDefaultEntries(config: Config, baseEntryId: string, runesEntryId: string)
    returns (rules: seq<RuleEntry>)
    ensures var zones := config.zones.GetOr([]);
      var baseId := PickZoneId(zones, "base");
      var runesId := PickZoneId(zones, "runes");
      rules == (if baseId != "" then [FromTemplate(baseEntryId, baseId, "turn")] else []) +
               (if runesId != "" then [FromTemplate(runesEntryId, runesId, "combat")] else [])
    ensures forall e :: e in rules ==> Kept(e)
  {
    var zones := config.zones.GetOr([]);
    var baseId := PickZoneId(zones, "base");
    var runesId := PickZoneId(zones, "runes");
    var base: seq<RuleEntry> := [];
    if baseId != "" {
      BlankEntryIsDroppedUntilFilled(baseEntryId, baseId, "turn");
      base := [FromTemplate(baseEntryId, baseId, "turn")];
    }
    var runes: seq<RuleEntry> := [];
    if runesId != "" {
      BlankEntryIsDroppedUntilFilled(runesEntryId, runesId, "combat");
      runes := [FromTemplate(runesEntryId, runesId, "combat")];
    }
    rules := base + runes;
  }

  /** `applyEntries` drops an entry without a zone or with only white space as text
      (whose trimmed text is empty). */
  predicate Kept(e: RuleEntry) {
    e.zoneId != "" && !AllSpace(e.text)
  }

  /** `Math.max(0, Number(fontSize) || 0)` */
  function PackedFontSize(v: Num): (r: real)
    ensures r >= 0.0
    ensures v.Finite? && v.value >= 0.0 ==> r == v.value
    ensures v.NaN? || v.value <= 0.0 ==> r == 0.0
  {
    match v
    case NaN => 0.0
    case Finite(x) => if x > 0.0 then x else 0.0
  }

  /** The text block a kept entry becomes. */
  function Pack(e: RuleEntry): (t: TextSpec)
    ensures t.enabled && t.content == Trim(e.text)
    ensures t.xPct == Some(ClampPct(e.xPct, 0.0)) && t.yPct == Some(ClampPct(e.yPct, 0.0))
    ensures t.wPct == Some(ClampPct(e.wPct, 100.0)) && t.hPct == Some(ClampPct(e.hPct, 100.0))
    ensures t.fontSize == PackedFontSize(e.fontSize)
    ensures t.align == "left" && t.valign == "top" && t.color == ""
  {
    TextSpec(Trim(e.text),
             Some(ClampPct(e.xPct, 0.0)), Some(ClampPct(e.yPct, 0.0)),
             Some(ClampPct(e.wPct, 100.0)), Some(ClampPct(e.hPct, 100.0)),
             "left", "top", "", PackedFontSize(e.fontSize), true)
  }

  /** An entry bound to `zoneId` is listed under `zoneId` and, in a mirrored layout,
      under the partner of `zoneId`. */
  predicate Targets(zoneId: string, z: string, mirrored: bool) {
    zoneId == z || (mirrored && LayoutSync.MirrorZoneId(zoneId) == Some(z))
  }

  /** What one entry adds to the list of zone `z`. */
  function Listed(e: RuleEntry, z: string, mirrored: bool): seq<TextSpec> {
    if Kept(e) && Targets(e.zoneId, z, mirrored) then [Pack(e)] else []
  }

  /** The entry itself when it is listed under zone `z`. */
  function Chosen(e: RuleEntry, z: string, mirrored: bool): seq<RuleEntry> {
    if Kept(e) && Targets(e.zoneId, z, mirrored) then [e] else []
  }

  /** The entries listed under zone `z`, in entry order. */
  function Selected(entries: seq<RuleEntry>, z: string, mirrored: bool): seq<RuleEntry>
  {
    if entries == [] then []
    else Selected(entries[..|entries| - 1], z, mirrored) + Chosen(entries[|entries| - 1], z, mirrored)
  }

  /** Entries packed one by one. */
  function PackAll(es: seq<RuleEntry>): (ts: seq<TextSpec>)
    ensures |ts| == |es| && forall k :: 0 <= k < |es| ==> ts[k] == Pack(es[k])
  {
    seq(|es|, k requires 0 <= k < |es| => Pack(es[k]))
  }

  /** The packed entries listed under zone `z`, in entry order. */
  function ListFor(entries: seq<RuleEntry>, z: string, mirrored: bool): seq<TextSpec>
  {
    PackAll(Selected(entries, z, mirrored))
  }

  /** The list under a key of the grouping map, `[]` for a key without one. */
  function Lookup(grouped: map<string, seq<TextSpec>>, z: string): seq<TextSpec> {
    if z in grouped then grouped[z] else []
  }

  /** `appendEntry(groupedByZone, zoneId, entry)`: push onto the list under `zoneId`. */
  function AppendEntry(grouped: map<string, seq<TextSpec>>, zoneId: string, t: TextSpec)
    : (r: map<string, seq<TextSpec>>)
    ensures Lookup(r, zoneId) == Lookup(grouped, zoneId) + [t]
    ensures forall z :: z != zoneId ==> Lookup(r, z) == Lookup(grouped, z)
  {
    grouped[zoneId := Lookup(grouped, zoneId) + [t]]
  }

  /** The legacy text of a zone, switched off. */
  function DisabledText(t: TextSpec): TextSpec {
    t.(enabled := false, content := "", align := "left", valign := "top")
  }

  /** One more entry adds its packed block to the lists of the zones it targets. */
  lemma ListForSnoc(entries: seq<RuleEntry>, e: RuleEntry, z: string, mirrored: bool)
    ensures ListFor(entries + [e], z, mirrored) == ListFor(entries, z, mirrored) + Listed(e, z, mirrored)
  {
    assert (entries + [e])[..|entries|] == entries;
    var a := Selected(entries, z, mirrored);
    var c := Chosen(e, z, mirrored);
    assert Selected(entries + [e], z, mirrored) == a + c;
    PackAllConcat(a, c);
    assert PackAll(c) == Listed(e, z, mirrored);
  }

  /** Packing distributes over concatenation. */
  lemma PackAllConcat(a: seq<RuleEntry>, b: seq<RuleEntry>)
    ensures PackAll(a + b) == PackAll(a) + PackAll(b)
  {
    var l := PackAll(a + b);
    var r := PackAll(a) + PackAll(b);
    assert |l| == |r|;
    forall k | 0 <= k < |l|
      ensures l[k] == r[k]
    {
      if k < |a| {
        assert (a + b)[k] == a[k];
      } else {
        assert (a + b)[k] == b[k - |a|];
      }
    }
  }

  /** The grouping map lists, under every zone, the packed entries of `entries`. */
  ghost predicate GroupedBy(grouped: map<string, seq<TextSpec>>, entries: seq<RuleEntry>, mirrored: bool) {
    forall z :: Lookup(grouped, z) == ListFor(entries, z, mirrored)
  }

  /** Grouping one more entry in keeps the grouping map in step with the entries: if
      `before` lists what `prefix` gives every zone, then `after`, which is `before`
      with `e` appended under the zones it targets, lists what `prefix + [e]` gives. */
  lemma GroupInvariantStep(prefix: seq<RuleEntry>, e: RuleEntry, mirrored: bool,
                           before: map<string, seq<TextSpec>>, after: map<string, seq<TextSpec>>)
    requires GroupedBy(before, prefix, mirrored)
    requires var m := LayoutSync.MirrorZoneId(e.zoneId);
      after == if !Kept(e) then before
               else if mirrored && m.Some? then AppendEntry(AppendEntry(before, e.zoneId, Pack(e)), m.value, Pack(e))
               else AppendEntry(before, e.zoneId, Pack(e))
    ensures GroupedBy(after, prefix + [e], mirrored)
  {
    var m := LayoutSync.MirrorZoneId(e.zoneId);
    if !Kept(e) {
      SkippedEntryStep(prefix, e, mirrored, before);
    } else if mirrored && m.Some? {
      PairedEntryStep(prefix, e, before, Pack(e));
    } else {
      SingleEntryStep(prefix, e, mirrored, before, Pack(e));
    }
  }

  lemma SkippedEntryStep(prefix: seq<RuleEntry>, e: RuleEntry, mirrored: bool, before: map<string, seq<TextSpec>>)
    requires GroupedBy(before, prefix, mirrored) && !Kept(e)
    ensures GroupedBy(before, prefix + [e], mirrored)
  {
    forall z
      ensures Lookup(before, z) == ListFor(prefix + [e], z, mirrored)
    {
      ListForSnoc(prefix, e, z, mirrored);
    }
  }

  lemma SingleEntryStep(prefix: seq<RuleEntry>, e: RuleEntry, mirrored: bool,
                        before: map<string, seq<TextSpec>>, t: TextSpec)
    requires GroupedBy(before, prefix, mirrored) && Kept(e) && t == Pack(e)
    requires !mirrored || LayoutSync.MirrorZoneId(e.zoneId).None?
    ensures GroupedBy(AppendEntry(before, e.zoneId, t), prefix + [e], mirrored)
  {
    var after := AppendEntry(before, e.zoneId, t);
    forall z
      ensures Lookup(after, z) == ListFor(prefix + [e], z, mirrored)
    {
      ListForSnoc(prefix, e, z, mirrored);
      assert Listed(e, z, mirrored) == if z == e.zoneId then [t] else [];
    }
  }

  lemma PairedEntryStep(prefix: seq<RuleEntry>, e: RuleEntry, before: map<string, seq<TextSpec>>, t: TextSpec)
    requires GroupedBy(before, prefix, true) && Kept(e) && t == Pack(e)
    requires LayoutSync.MirrorZoneId(e.zoneId).Some?
    ensures var p := LayoutSync.MirrorZoneId(e.zoneId).value;
      GroupedBy(AppendEntry(AppendEntry(before, e.zoneId, t), p, t), prefix + [e], true)
  {
    var p := LayoutSync.MirrorZoneId(e.zoneId).value;
    LayoutSync.MirrorZoneIdInvolution(e.zoneId);
    assert p != e.zoneId;
    var after := AppendEntry(AppendEntry(before, e.zoneId, t), p, t);
    forall z
      ensures Lookup(after, z) == ListFor(prefix + [e], z, true)
    {
      ListForSnoc(prefix, e, z, true);
      assert Listed(e, z, true) == if z == e.zoneId || z == p then [t] else [];
    }
  }

  /** The callback the `forEach` of `applyEntries` runs on one entry: skip it when it
      has no zone or no text, else append its packed block under its zone and, in a
      mirrored layout, under the partner zone. `prefix` stands for the entries already
      grouped. */
  method GroupEntry(grouped: map<string, seq<TextSpec>>, e: RuleEntry, mirrored: bool, ghost prefix: seq<RuleEntry>)
    returns (after: map<string, seq<TextSpec>>)
    requires GroupedBy(grouped, prefix, mirrored)
    ensures GroupedBy(after, prefix + [e], mirrored)
  {
    after := grouped;
    var text := Trim(e.text);
    if e.zoneId == "" || text == "" {
      GroupInvariantStep(prefix, e, mirrored, grouped, after);
      return;
    }
    var packed := Pack(e);
    after := AppendEntry(after, e.zoneId, packed);
    if mirrored {
      var partner := LayoutSync.MirrorZoneId(e.zoneId);
      if partner.Some? {
        after := AppendEntry(after, partner.value, packed);
      }
    }
    GroupInvariantStep(prefix, e, mirrored, grouped, after);
  }

  /** The `forEach` of `applyEntries`: group the packed entries by the zones they target. */
  method GroupEntries(entries: seq<RuleEntry>, mirrored: bool) returns (grouped: map<string, seq<TextSpec>>)
    ensures GroupedBy(grouped, entries, mirrored)
  {
    grouped := map[];
    var i := 0;
    assert entries[..0] == [];
    while i < |entries|
      invariant 0 <= i <= |entries|
      invariant GroupedBy(grouped, entries[..i], mirrored)
    {
      grouped := GroupEntry(grouped, entries[i], mirrored, entries[..i]);
      assert entries[..i + 1] == entries[..i] + [entries[i]];
      i := i + 1;
    }
    assert entries[..i] == entries;
  }

  /** `applyEntries(config, rulesEntries, rulesEnabled)`. A configuration without zones
      comes back unchanged. Otherwise every zone keeps its place and everything but two
      fields: `textEntries` becomes the packed entries listed under its id (or `[]` when
      rules are disabled), and the legacy `text` is switched off. */
  method ApplyEntries(config: Config, entries: seq<RuleEntry>, rulesEnabled: bool) returns (r: Config)
    ensures config.zones.None? ==> r == config
    ensures config.zones.Some? ==>
      var zones := config.zones.value;
      var mirrored := LayoutSync.IsMirroredTwoPlayer(zones);
      && r == config.(zones := r.zones)
      && r.zones.Some? && |r.zones.value| == |zones|
      && forall k :: 0 <= k < |zones| ==>
           r.zones.value[k] == zones[k].(textEntries := Some(if rulesEnabled then ListFor(entries, zones[k].id, mirrored) else []),
                                         text := DisabledText(zones[k].text))
  {
    if config.zones.None? {
      return config;
    }
    var zones := config.zones.value;
    var mirrored := LayoutSync.IsMirroredTwoPlayer(zones);
    var grouped := GroupEntries(entries, mirrored);
    var newZones := seq(|zones|, k requires 0 <= k < |zones| =>
      zones[k].(textEntries := Some(if rulesEnabled then Lookup(grouped, zones[k].id) else []),
                text := DisabledText(zones[k].text)));
    r := config.(zones := Some(newZones));
  }

  /** The entries listed under a zone are kept entries of `entries` that target it. */
  lemma {:induction false} SelectedAreTargeting(entries: seq<RuleEntry>, z: string, mirrored: bool, e: RuleEntry)
    requires e in Selected(entries, z, mirrored)
    ensures e in entries && Kept(e) && Targets(e.zoneId, z, mirrored)
    decreases |entries|
  {
    var n := |entries|;
    var init := entries[..n - 1];
    if e in Selected(init, z, mirrored) {
      SelectedAreTargeting(init, z, mirrored, e);
      assert e in init;
    } else {
      assert e == entries[n - 1];
    }
  }

  /** Every listed block is enabled, with percentages in [0, 100] and a size of at
      least 0, and comes from a kept entry that targets the zone. */
  lemma ListedEntriesArePacked(entries: seq<RuleEntry>, z: string, mirrored: bool, t: TextSpec)
    requires t in ListFor(entries, z, mirrored)
    ensures t.enabled && t.fontSize >= 0.0
    ensures t.xPct.Some? && 0.0 <= t.xPct.value <= 100.0 && t.yPct.Some? && 0.0 <= t.yPct.value <= 100.0
    ensures t.wPct.Some? && 0.0 <= t.wPct.value <= 100.0 && t.hPct.Some? && 0.0 <= t.hPct.value <= 100.0
    ensures exists e :: e in entries && Kept(e) && Targets(e.zoneId, z, mirrored) && t == Pack(e)
  {
    var sel := Selected(entries, z, mirrored);
    var j :| 0 <= j < |sel| && PackAll(sel)[j] == t;
    var e := sel[j];
    SelectedAreTargeting(entries, z, mirrored, e);
    assert t == Pack(e);
  }

  /** A kept entry is among the entries listed under its own zone. */
  lemma {:induction false} KeptEntryIsSelected(entries: seq<RuleEntry>, i: nat, mirrored: bool)
    requires i < |entries| && Kept(entries[i])
    ensures entries[i] in Selected(entries, entries[i].zoneId, mirrored)
    decreases |entries|
  {
    var n := |entries|;
    var e := entries[i];
    var init := entries[..n - 1];
    if i < n - 1 {
      assert init[i] == e;
      KeptEntryIsSelected(init, i, mirrored);
    } else {
      assert Chosen(e, e.zoneId, mirrored) == [e];
    }
  }

  /** A kept entry is listed under its own zone. */
  lemma KeptEntryIsListed(entries: seq<RuleEntry>, i: nat, mirrored: bool)
    requires i < |entries| && Kept(entries[i])
    ensures Pack(entries[i]) in ListFor(entries, entries[i].zoneId, mirrored)
  {
    var sel := Selected(entries, entries[i].zoneId, mirrored);
    KeptEntryIsSelected(entries, i, mirrored);
    var j :| 0 <= j < |sel| && sel[j] == entries[i];
    assert PackAll(sel)[j] == Pack(entries[i]);
  }

  /** In a mirrored layout the two zones of a pair get the same list: every entry bound
      to one of them is duplicated, with identical content, onto the other. */
  lemma MirroredZonesShareEntries(entries: seq<RuleEntry>, z: string)
    requires LayoutSync.MirrorZoneId(z).Some?
    ensures ListFor(entries, z, true) == ListFor(entries, LayoutSync.MirrorZoneId(z).value, true)
  {
    MirroredZonesSelectAlike(entries, z);
  }

  /** Both zones of a mirrored pair select the same entries. */
  lemma {:induction false} MirroredZonesSelectAlike(entries: seq<RuleEntry>, z: string)
    requires LayoutSync.MirrorZoneId(z).Some?
    ensures Selected(entries, z, true) == Selected(entries, LayoutSync.MirrorZoneId(z).value, true)
    decreases |entries|
  {
    if entries != [] {
      var n := |entries|;
      var e := entries[n - 1];
      var p := LayoutSync.MirrorZoneId(z).value;
      MirroredZonesSelectAlike(entries[..n - 1], z);
      LayoutSync.MirrorZoneIdInvolution(z);
      assert Targets(e.zoneId, z, true) == Targets(e.zoneId, p, true) by {
        var m := LayoutSync.MirrorZoneId(e.zoneId);
        if m.Some? {
          LayoutSync.MirrorZoneIdInvolution(e.zoneId);
        }
      }
    }
  }

  /** Without a mirrored pair an entry is listed under its own zone only. */
  lemma {:induction false} UnmirroredListIsOwnEntries(entries: seq<RuleEntry>, z: string, t: TextSpec)
    requires t in ListFor(entries, z, false)
    ensures exists e :: e in entries && Kept(e) && e.zoneId == z && t == Pack(e)
  {
    ListedEntriesArePacked(entries, z, false, t);
  }
}
