/**
 * The shared colour library of the charts: the chart palette, the map from
 * series and slice labels to palette colours, and the two lookups the
 * tooltips and legends use, each ending in the indigo default.
 */
module Colors {
  import opened Wrappers
  import opened JsValues

  /** The chart palette (`chartColors`). */
  const ChartColors: map<string, string> := map[
    "emails" := "#6366f1",
    "linkedin" := "#10b981",
    "calls" := "#f59e0b",
    "email" := "#6366f1",
    "coldCall" := "#06b6d4",
    "referral" := "#8b5cf6",
    "revenue" := "#6366f1",
    "leads" := "#10b981",
    "teal" := "#14b8a6"
  ]

  /** The colour every lookup falls back to: the palette's `emails` indigo. */
  const DefaultColor := "#6366f1"

  /** Series and slice labels mapped to palette colours (`colorMap`). */
  const ColorMap: map<string, string> := map[
    "Emails" := ChartColors["emails"],
    "emails" := ChartColors["emails"],
    "LinkedIn" := ChartColors["linkedin"],
    "linkedin" := ChartColors["linkedin"],
    "Calls" := ChartColors["calls"],
    "calls" := ChartColors["calls"],
    "Email" := ChartColors["email"],
    "Cold Call" := ChartColors["coldCall"],
    "Referral" := ChartColors["referral"],
    "Revenue ($)" := ChartColors["revenue"],
    "Leads" := ChartColors["leads"],
    "value" := ChartColors["emails"]
  ]

  /** The default is the palette's `emails` colour, and every palette colour is a non-empty string. */
  lemma PaletteColours()
    ensures "emails" in ChartColors && DefaultColor == ChartColors["emails"]
    ensures forall k :: k in ChartColors ==> ChartColors[k] != ""
  {
  }

  /** Aliases of one series share a colour, and every mapped colour is a palette colour. */
  lemma AliasesAgree()
    ensures ColorMap["Emails"] == ColorMap["emails"] == ColorMap["value"] == DefaultColor
    ensures ColorMap["LinkedIn"] == ColorMap["linkedin"]
    ensures ColorMap["Calls"] == ColorMap["calls"]
    ensures ColorMap.Values <= ChartColors.Values
  {
    assert forall k :: k in ColorMap ==> ColorMap[k] in ChartColors.Values by {
      assert ChartColors["emails"] in ChartColors.Values;
      assert ChartColors["linkedin"] in ChartColors.Values;
      assert ChartColors["calls"] in ChartColors.Values;
      assert ChartColors["coldCall"] in ChartColors.Values;
      assert ChartColors["referral"] in ChartColors.Values;
    }
  }

  /** Every mapped colour is non-empty, so a mapped key never falls through to the fallback. */
  lemma MappedColoursPresent()
    ensures forall k :: k in ColorMap ==> ColorMap[k] != ""
  {
  }

  /** `colorMap[key]`: `undefined` for a label the map lacks. */
  function Mapped(key: string): (r: Option<string>)
    ensures r.Some? <==> key in ColorMap
    ensures r.Some? ==> r.value in ChartColors.Values
  {
    AliasesAgree();
    if key in ColorMap then Some(ColorMap[key]) else None
  }

  /**
   * `getColor(key, fallback)`: the mapped colour of `key`, otherwise the
   * fallback, which defaults to indigo when the caller passes none.
   */
  function GetColor(key: string, fallback: Option<string>): (r: string)
    ensures key in ColorMap ==> r == ColorMap[key]
    ensures key !in ColorMap ==> r == fallback.GetOr(DefaultColor)
  {
    MappedColoursPresent();
    Or([Mapped(key)], fallback.GetOr(DefaultColor))
  }

  /** Without a fallback, `getColor` always yields a palette colour. */
  lemma GetColorDefaultInPalette(key: string)
    ensures GetColor(key, None) in ChartColors.Values
    ensures GetColor(key, None) != ""
  {
    AliasesAgree();
    PaletteColours();
    assert ChartColors["emails"] in ChartColors.Values;
  }

  /** A Recharts entry's `payload`: only its `fill` matters here. */
  datatype Payload = Payload(fill: Option<string>)

  /** A Recharts tooltip or legend entry. */
  datatype Entry = Entry(fill: Option<string>, color: Option<string>, payload: Option<Payload>,
                         name: Option<string>, dataKey: Option<string>)

  /** `colorMap[k]` for a property that may be `undefined`, which reads the key "undefined". */
  function MappedProp(k: Option<string>): Option<string> {
    Mapped(k.GetOr("undefined"))
  }

  /** `entry.payload && entry.payload.fill`: undefined when the entry has no payload. */
  function PayloadFill(p: Option<Payload>): Option<string> {
    if p.Some? then p.value.fill else None
  }

  /** The candidates `getColorFromEntry` tries, in priority order. */
  function EntryCandidates(e: Entry): seq<Option<string>> {
    [e.fill, e.color, PayloadFill(e.payload), MappedProp(e.name), MappedProp(e.dataKey)]
  }

  /** `getColorFromEntry`: the first non-empty candidate, otherwise indigo; never empty. */
  function GetColorFromEntry(e: Entry): (r: string)
    ensures r != ""
  {
    OrNonEmpty(EntryCandidates(e), DefaultColor);
    Or(EntryCandidates(e), DefaultColor)
  }

  /** An entry's own fill wins, then its own colour; with no candidate at all it gets indigo. */
  lemma EntryOwnColourFirst(e: Entry)
    ensures Present(e.fill) ==> GetColorFromEntry(e) == e.fill.value
    ensures !Present(e.fill) && Present(e.color) ==> GetColorFromEntry(e) == e.color.value
    ensures (forall i :: 0 <= i < 5 ==> !Present(EntryCandidates(e)[i])) ==> GetColorFromEntry(e) == DefaultColor
  {
    var alts := EntryCandidates(e);
    if Present(e.fill) {
      OrFirstPresent(alts, DefaultColor, 0);
    } else if Present(e.color) {
      OrFirstPresent(alts, DefaultColor, 1);
    }
    if forall i :: 0 <= i < 5 ==> !Present(alts[i]) {
      OrAllAbsent(alts, DefaultColor);
    }
  }

  /** With no colour of its own, an entry takes the payload's fill, then its name's colour, then its data key's. */
  lemma EntryFallsBackToLabels(e: Entry)
    requires !Present(e.fill) && !Present(e.color)
    ensures Present(PayloadFill(e.payload)) ==> GetColorFromEntry(e) == PayloadFill(e.payload).value
    ensures !Present(PayloadFill(e.payload)) && e.name.Some? && e.name.value in ColorMap
            ==> GetColorFromEntry(e) == ColorMap[e.name.value]
    ensures !Present(PayloadFill(e.payload)) && (e.name.None? || e.name.value !in ColorMap)
            && e.dataKey.Some? && e.dataKey.value in ColorMap
            ==> GetColorFromEntry(e) == ColorMap[e.dataKey.value]
  {
    var alts := EntryCandidates(e);
    MappedColoursPresent();
    assert "undefined" !in ColorMap;
    if Present(PayloadFill(e.payload)) {
      OrFirstPresent(alts, DefaultColor, 2);
    } else if e.name.Some? && e.name.value in ColorMap {
      OrFirstPresent(alts, DefaultColor, 3);
    } else if e.dataKey.Some? && e.dataKey.value in ColorMap {
      OrFirstPresent(alts, DefaultColor, 4);
    }
  }

  /** An entry without colours of its own always gets a palette colour. */
  lemma LabelledEntryInPalette(e: Entry)
    requires !Present(e.fill) && !Present(e.color) && !Present(PayloadFill(e.payload))
    ensures GetColorFromEntry(e) in ChartColors.Values
  {
    var alts := EntryCandidates(e);
    MappedColoursPresent();
    PaletteColours();
    assert ChartColors["emails"] in ChartColors.Values;
    if Present(alts[3]) {
      OrFirstPresent(alts, DefaultColor, 3);
    } else if Present(alts[4]) {
      OrFirstPresent(alts, DefaultColor, 4);
    } else {
      OrAllAbsent(alts, DefaultColor);
    }
  }
}
