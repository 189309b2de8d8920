/**
 * The agent settings page: one settings record the page edits in place, a
 * key at a time. Switches negate a key, the three sliders store the integer
 * their text value parses to, and the two selects store the chosen option.
 */
module AgentSettings {
  import opened Wrappers
  import opened JsValues
  import opened Text

  /** The settings record, key by key (a key that was never set is absent). */
  type Settings = map<string, Json>

  /** The record the page starts from. */
  const InitialSettings: Settings := map[
    "autoRespond" := JBool(true),
    "followUpEnabled" := JBool(true),
    "sentimentAnalysis" := JBool(true),
    "personalization" := JBool(true),
    "abTesting" := JBool(false),
    "emailChannel" := JBool(true),
    "linkedinChannel" := JBool(true),
    "phoneChannel" := JBool(false),
    "aggressiveness" := JNum(60),
    "responseDelay" := JNum(30),
    "maxFollowUps" := JNum(5),
    "workingHoursOnly" := JBool(true),
    "timezone" := JStr("America/New_York"),
    "tone" := JStr("professional"),
    "language" := JStr("en")
  ]

  /** The keys behind a switch on the page. */
  const FlagKeys: set<string> := {"autoRespond", "followUpEnabled", "sentimentAnalysis", "personalization",
                                  "abTesting", "emailChannel", "linkedinChannel", "phoneChannel", "workingHoursOnly"}

  /** The keys behind a slider. */
  const SliderKeys: set<string> := {"aggressiveness", "responseDelay", "maxFollowUps"}

  /** The keys holding text. */
  const TextKeys: set<string> := {"timezone", "tone", "language"}

  /** The bounds of each slider (`min` and `max` of its range input). */
  function SliderRange(key: string): (r: (int, int))
    requires key in SliderKeys
    ensures r.0 <= r.1
  {
    if key == "aggressiveness" then (0, 100)
    else if key == "responseDelay" then (0, 120)
    else (1, 10)
  }

  /** The values of the tone select. */
  const ToneOptions: set<string> := {"professional", "friendly", "formal", "conversational"}

  /** The values of the timezone select. */
  const TimezoneOptions: set<string> := {"America/New_York", "America/Chicago", "America/Denver",
                                        "America/Los_Angeles", "Europe/London", "Europe/Paris", "Asia/Tokyo"}

  /**
   * The record has exactly the initial keys: booleans behind the switches,
   * numbers behind the sliders, text elsewhere, and the two selects hold
   * one of their options.
   */
  predicate WellTyped(s: Settings) {
    s.Keys == FlagKeys + SliderKeys + TextKeys
    && (forall k :: k in FlagKeys ==> s[k].JBool?)
    && (forall k :: k in SliderKeys ==> s[k].JNum?)
    && (forall k :: k in TextKeys ==> s[k].JStr?)
    && s["tone"].s in ToneOptions
    && s["timezone"].s in TimezoneOptions
  }

  /** The switch for `key` after one click: `!prev[key]`, where an absent key reads as `undefined`, which is falsy. */
  function Toggled(s: Settings, key: string): (r: Settings)
    ensures r.Keys == s.Keys + {key}
    ensures r[key].JBool? && (r[key].b <==> !(key in s && Truthy(s[key])))
    ensures forall k :: k in s && k != key ==> r[k] == s[k]
  {
    s[key := JBool(!(key in s && Truthy(s[key])))]
  }

  /** The record after `key` is set to `v`, every other key copied unchanged. */
  function WithValue(s: Settings, key: string, v: Json): (r: Settings)
    ensures r.Keys == s.Keys + {key} && r[key] == v
    ensures forall k :: k in s && k != key ==> r[k] == s[k]
  {
    s[key := v]
  }

  /** Two clicks on a switch holding a boolean restore the record. */
  lemma ToggleTwice(s: Settings, key: string)
    requires key in s && s[key].JBool?
    ensures Toggled(Toggled(s, key), key) == s
  {
    var t := Toggled(Toggled(s, key), key);
    assert t[key] == s[key];
    assert forall k :: k in s ==> t[k] == s[k];
  }

  /** Two clicks on a key holding something other than a boolean leave its truthiness as a boolean. */
  lemma ToggleTwiceCoerces(s: Settings, key: string)
    ensures Toggled(Toggled(s, key), key) == s[key := JBool(key in s && Truthy(s[key]))]
  {
  }

  /** A click on a switch keeps the record well typed. */
  lemma ToggleKeepsWellTyped(s: Settings, key: string)
    requires WellTyped(s) && key in FlagKeys
    ensures WellTyped(Toggled(s, key))
  {
    var r := Toggled(s, key);
    assert r.Keys == s.Keys;
    assert forall k :: k in TextKeys ==> k != key && r[k] == s[k];
  }

  /** Moving a slider keeps the record well typed. */
  lemma SliderKeepsWellTyped(s: Settings, key: string, n: int)
    requires WellTyped(s) && key in SliderKeys
    ensures WellTyped(WithValue(s, key, JNum(n)))
  {
    var r := WithValue(s, key, JNum(n));
    assert r.Keys == s.Keys;
    assert forall k :: k in TextKeys ==> k != key && r[k] == s[k];
  }

  /** Choosing a tone option keeps the record well typed. */
  lemma ToneKeepsWellTyped(s: Settings, tone: string)
    requires WellTyped(s) && tone in ToneOptions
    ensures WellTyped(WithValue(s, "tone", JStr(tone)))
  {
    var r := WithValue(s, "tone", JStr(tone));
    assert r.Keys == s.Keys;
    assert r["timezone"] == s["timezone"];
  }

  /** Choosing a timezone option keeps the record well typed. */
  lemma TimezoneKeepsWellTyped(s: Settings, zone: string)
    requires WellTyped(s) && zone in TimezoneOptions
    ensures WellTyped(WithValue(s, "timezone", JStr(zone)))
  {
    var r := WithValue(s, "timezone", JStr(zone));
    assert r.Keys == s.Keys;
    assert r["tone"] == s["tone"];
  }

  /** The initial record holds exactly the switch, slider and text keys. */
  lemma InitialKeys()
    ensures InitialSettings.Keys == FlagKeys + SliderKeys + TextKeys
  {
  }

  /** The phone channel and A/B testing start off; every other switch starts on. */
  lemma InitialSwitches()
    ensures forall k :: k in FlagKeys ==> InitialSettings[k].JBool?
    ensures forall k :: k in FlagKeys ==> (InitialSettings[k].b <==> k != "phoneChannel" && k != "abTesting")
  {
  }

  /** Each slider starts inside its range: 60 in [0, 100], 30 in [0, 120], 5 in [1, 10]. */
  lemma InitialSliders()
    ensures forall k :: k in SliderKeys ==> InitialSettings[k].JNum?
    ensures forall k :: k in SliderKeys ==> SliderRange(k).0 <= InitialSettings[k].n <= SliderRange(k).1
  {
  }

  /** The initial record is well typed. */
  lemma InitialSettingsValid()
    ensures WellTyped(InitialSettings)
  {
    InitialKeys();
    InitialSwitches();
    InitialSliders();
    assert forall k :: k in TextKeys ==> InitialSettings[k].JStr?;
  }

  /** The page's state: the settings record, edited in place. */
  class SettingsPanel {
    var settings: Settings

    constructor()
      ensures settings == InitialSettings
    {
      settings := InitialSettings;
    }

    /** A switch: flips `key` and nothing else. */
    method HandleToggle(key: string)
      modifies this
      ensures settings == Toggled(old(settings), key)
      ensures old(WellTyped(settings)) && key in FlagKeys ==> WellTyped(settings)
    {
      if WellTyped(settings) && key in FlagKeys {
        ToggleKeepsWellTyped(settings, key);
      }
      settings := settings[key := JBool(!(key in settings && Truthy(settings[key])))];
    }

    /**
     * A slider: stores the integer its text value parses to under `key`
     * and nothing else. A range input always delivers a numeral.
     */
    method HandleSliderChange(key: string, value: string)
      requires ParseInt(value).Some?
      modifies this
      ensures settings == WithValue(old(settings), key, JNum(ParseInt(value).value))
      ensures old(WellTyped(settings)) && key in SliderKeys ==> WellTyped(settings)
    {
      var n := ParseInt(value).value;
      if WellTyped(settings) && key in SliderKeys {
        SliderKeepsWellTyped(settings, key, n);
      }
      settings := settings[key := JNum(n)];
    }

    /** The tone select: stores the chosen option and nothing else. */
    method HandleToneChange(value: string)
      modifies this
      ensures settings == WithValue(old(settings), "tone", JStr(value))
      ensures old(WellTyped(settings)) && value in ToneOptions ==> WellTyped(settings)
    {
      if WellTyped(settings) && value in ToneOptions {
        ToneKeepsWellTyped(settings, value);
      }
      settings := settings["tone" := JStr(value)];
    }

    /** The timezone select: stores the chosen option and nothing else. */
    method HandleTimezoneChange(value: string)
      modifies this
      ensures settings == WithValue(old(settings), "timezone", JStr(value))
      ensures old(WellTyped(settings)) && value in TimezoneOptions ==> WellTyped(settings)
    {
      if WellTyped(settings) && value in TimezoneOptions {
        TimezoneKeepsWellTyped(settings, value);
      }
      settings := settings["timezone" := JStr(value)];
    }
  }

  /** The "Requires additional setup" note under the phone channel shows while that switch is off. */
  predicate PhoneSetupNoteShown(s: Settings) {
    !("phoneChannel" in s && Truthy(s["phoneChannel"]))
  }

  /** Moving a slider to the value it renders as text stores exactly that value. */
  lemma SliderStoresRenderedValue(s: Settings, key: string, n: nat)
    ensures ParseInt(Decimal(n)) == Some(n)
    ensures WithValue(s, key, JNum(ParseInt(Decimal(n)).value))[key] == JNum(n)
  {
    ParseDecimal(n, "");
    assert Decimal(n) + "" == Decimal(n);
  }

  /** The note under the phone channel shows on a fresh page and flips with each click on that switch. */
  lemma PhoneNoteFollowsSwitch(s: Settings)
    ensures PhoneSetupNoteShown(InitialSettings)
    ensures PhoneSetupNoteShown(Toggled(s, "phoneChannel")) <==> !PhoneSetupNoteShown(s)
  {
  }
}
