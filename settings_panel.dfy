/** The renderer's settings panel (src/renderer/js/components/Settings.js):
    a flat map of settings over twelve defaults, loaded from the main
    process, edited one key at a time, reset, and imported from a JSON file
    of which only the keys the defaults know are kept. */
module SettingsPanel {
  import opened Wrappers

  /** A JSON value as the settings hold it (numbers restricted to integers). */
  datatype Json =
    | JString(s: string)
    | JNumber(n: int)
    | JBool(b: bool)
    | JNull
    | JArray(items: seq<Json>)
    | JObject(fields: map<string, Json>)

  type Settings = map<string, Json>

  /** The message the panel shows after an operation, and its kind. */
  datatype FeedbackKind = Succeeded | Failed
  datatype Feedback = Feedback(message: string, kind: FeedbackKind)

  /** The default keys, in the order the defaults object declares them. */
  const DefaultKeys: seq<string> := [
    "defaultScaleFactor", "defaultEnhancementMode", "defaultOutputQuality", "defaultNoiseReduction",
    "appTheme", "defaultOutputPath", "autoOpenOutput", "showNotifications",
    "processingPriority", "memoryLimit", "autoPauseBattery", "processingTimeout"]

  /** The defaults: enhancement, application and performance settings. */
  function Defaults(): (d: Settings)
    ensures d.Keys == set k | k in DefaultKeys
  {
    map[
      "defaultScaleFactor" := JString("2"),
      "defaultEnhancementMode" := JString("sharp"),
      "defaultOutputQuality" := JString("high"),
      "defaultNoiseReduction" := JNumber(50),
      "appTheme" := JString("dark"),
      "defaultOutputPath" := JString(""),
      "autoOpenOutput" := JBool(false),
      "showNotifications" := JBool(true),
      "processingPriority" := JString("normal"),
      "memoryLimit" := JString("balanced"),
      "autoPauseBattery" := JBool(true),
      "processingTimeout" := JNumber(30)]
  }

  /** `{ ...base, ...top }`: every key of either, the value of `top` winning. */
  function Merge(base: Settings, top: Settings): (r: Settings)
    ensures r.Keys == base.Keys + top.Keys
    ensures forall k | k in top :: r[k] == top[k]
    ensures forall k | k in base && k !in top :: r[k] == base[k]
  {
    base + top
  }

  /** `importedSettings.hasOwnProperty(...)` throws a TypeError on a parsed
      `null`, and on an object whose own `hasOwnProperty` property (JSON
      cannot hold a function) hides the method. */
  predicate HasOwnThrows(parsed: Json) {
    parsed.JNull? || (parsed.JObject? && "hasOwnProperty" in parsed.fields)
  }

  /** Whether the parsed file has `key` as an own property: only an object
      has the settings' keys as own properties (a string's or an array's own
      properties are indices and `length`). */
  predicate HasOwn(parsed: Json, key: string) {
    parsed.JObject? && key in parsed.fields
  }

  /** The call `importedSettings.hasOwnProperty(key)`: None where it throws. */
  function HasOwnCall(parsed: Json, key: string): (r: Option<bool>)
    ensures r.None? <==> HasOwnThrows(parsed)
    ensures r.Some? ==> (r.value <==> HasOwn(parsed, key))
  {
    if HasOwnThrows(parsed) then None else Some(HasOwn(parsed, key))
  }

  /** The validation loop of `importSettings`: for each default key the
      parsed file has, its value; None when the first `hasOwnProperty` call
      throws. */
  method KeepKnownKeys(parsed: Json) returns (valid: Option<Settings>)
    ensures valid.None? <==> HasOwnThrows(parsed)
    ensures valid.Some? ==> valid.value.Keys == set k | k in Defaults() && HasOwn(parsed, k)
    ensures valid.Some? ==> forall k | k in valid.value :: valid.value[k] == parsed.fields[k]
  {
    var kept: Settings := map[];
    var i := 0;
    while i < |DefaultKeys|
      invariant 0 <= i <= |DefaultKeys|
      invariant i > 0 ==> !HasOwnThrows(parsed)
      invariant kept.Keys == set k | k in DefaultKeys[..i] && HasOwn(parsed, k)
      invariant forall k | k in kept :: parsed.JObject? && k in parsed.fields && kept[k] == parsed.fields[k]
    {
      var key := DefaultKeys[i];
      var own := HasOwnCall(parsed, key);
      if own.None? {
        return None;
      }
      if own.value {
        kept := kept[key := parsed.fields[key]];
      }
      assert DefaultKeys[..i + 1] == DefaultKeys[..i] + [key];
      i := i + 1;
    }
    assert DefaultKeys[..i] == DefaultKeys;
    return Some(kept);
  }

  /** What an import leaves: the defaults, overridden by the file's values
      for the keys the defaults know. No other key gets in. */
  lemma ImportedSettings(parsed: Json, valid: Settings)
    requires valid.Keys == set k | k in Defaults() && HasOwn(parsed, k)
    requires forall k | k in valid :: valid[k] == parsed.fields[k]
    ensures Merge(Defaults(), valid).Keys == Defaults().Keys
    ensures forall k | k in Defaults() && HasOwn(parsed, k) :: Merge(Defaults(), valid)[k] == parsed.fields[k]
    ensures forall k | k in Defaults() && !HasOwn(parsed, k) :: Merge(Defaults(), valid)[k] == Defaults()[k]
  {
    var r := Merge(Defaults(), valid);
    forall k | k in Defaults() && HasOwn(parsed, k) ensures r[k] == parsed.fields[k] {
      assert k in valid;
    }
  }

  /** The settings component. */
  class SettingsComponent {
    var settings: Settings

    /** Settings start empty until `loadSettings` has run. */
    constructor()
      ensures settings == map[]
    {
      settings := map[];
    }

    /** `loadSettings`: the defaults overridden by what the main process
        returns; exactly the defaults when fetching fails (None). */
    method LoadSettings(fetched: Option<Settings>)
      modifies this
      ensures fetched.Some? ==> settings == Merge(Defaults(), fetched.value)
      ensures fetched.None? ==> settings == Defaults()
    {
      match fetched {
        case Some(s) =>
          settings := s;
          settings := Merge(Defaults(), settings);
        case None =>
          settings := Defaults();
      }
    }

    /** `updateSetting`: the key is set locally before the main process is
        asked to store it, so it is set whether or not that succeeds; the
        feedback reports the outcome. */
    method UpdateSetting(key: string, value: Json, stored: bool) returns (feedback: Feedback)
      modifies this
      ensures settings == old(settings)[key := value]
      ensures feedback == if stored then Feedback("Updated " + key, Succeeded) else Feedback("Failed to update " + key, Failed)
    {
      settings := settings[key := value];
      if stored {
        feedback := Feedback("Updated " + key, Succeeded);
      } else {
        feedback := Feedback("Failed to update " + key, Failed);
      }
    }

    /** `resetSettings`: nothing unless the user confirms; then the
        defaults, which stay even when storing them fails (`stored`
        false) and the failure is reported. */
    method ResetSettings(confirmed: bool, stored: bool) returns (feedback: Option<Feedback>)
      modifies this
      ensures confirmed ==> settings == Defaults()
      ensures confirmed && stored ==> feedback == Some(Feedback("Settings reset to defaults", Succeeded))
      ensures confirmed && !stored ==> feedback == Some(Feedback("Failed to reset settings", Failed))
      ensures !confirmed ==> settings == old(settings) && feedback.None?
    {
      if !confirmed {
        return None;
      }
      settings := Defaults();
      if stored {
        feedback := Some(Feedback("Settings reset to defaults", Succeeded));
      } else {
        feedback := Some(Feedback("Failed to reset settings", Failed));
      }
    }

    /** `importSettings` once the file is read: None when reading or
        parsing fails. A parsed `null`, or an object with its own
        `hasOwnProperty` key, throws in the validation loop. Each of these
        failures leaves the settings as they were. Otherwise the settings
        are replaced before they are stored, so a failure to store them
        (`stored` false) keeps the imported settings and reports the file
        as invalid. */
    method ImportSettings(parsed: Option<Json>, stored: bool) returns (feedback: Feedback)
      modifies this
      ensures parsed.None? || HasOwnThrows(parsed.value) ==> settings == old(settings) && feedback == Feedback("Invalid settings file", Failed)
      ensures parsed.Some? && !HasOwnThrows(parsed.value) ==>
                feedback == (if stored then Feedback("Settings imported successfully", Succeeded) else Feedback("Invalid settings file", Failed))
                && settings.Keys == Defaults().Keys
                && (forall k | k in Defaults() && HasOwn(parsed.value, k) :: settings[k] == parsed.value.fields[k])
                && (forall k | k in Defaults() && !HasOwn(parsed.value, k) :: settings[k] == Defaults()[k])
    {
      if parsed.None? {
        return Feedback("Invalid settings file", Failed);
      }
      var valid := KeepKnownKeys(parsed.value);
      if valid.None? {
        return Feedback("Invalid settings file", Failed);
      }
      ImportedSettings(parsed.value, valid.value);
      settings := Merge(Defaults(), valid.value);
      if stored {
        feedback := Feedback("Settings imported successfully", Succeeded);
      } else {
        feedback := Feedback("Invalid settings file", Failed);
      }
    }

    /** `getSettings`: the whole map, as a copy (maps are values here). */
    function GetSettings(): (r: Settings)
      reads this
      ensures forall k :: k in r <==> k in settings
      ensures forall k | k in r :: r[k] == settings[k]
    {
      settings
    }

    /** `getSetting`: the stored value, or `defaultValue` for a key that is
        not set. */
    function GetSetting(key: string, defaultValue: Json): (r: Json)
      reads this
      ensures key in settings ==> r == settings[key]
      ensures key !in settings ==> r == defaultValue
    {
      if key in settings then settings[key] else defaultValue
    }
  }

  /** Loading, then updating one key: `getSetting` sees the new value and
      every other default key keeps its loaded value. */
  method UpdateAfterLoad(fetched: Option<Settings>, key: string, value: Json) returns (panel: SettingsComponent)
    ensures panel.GetSetting(key, JNull) == value
    ensures forall k | k in Defaults() && k != key :: k in panel.settings
  {
    panel := new SettingsComponent();
    panel.LoadSettings(fetched);
    var feedback := panel.UpdateSetting(key, value, true);
  }

  /** A confirmed reset after an import brings back every default. */
  method ResetAfterImport(parsed: Option<Json>) returns (panel: SettingsComponent)
    ensures forall k | k in DefaultKeys :: panel.GetSetting(k, JNull) == Defaults()[k]
  {
    panel := new SettingsComponent();
    panel.LoadSettings(None);
    var imported := panel.ImportSettings(parsed, true);
    var reset := panel.ResetSettings(true, true);
  }

  /** A file whose own `hasOwnProperty` key hides the method is rejected as
      a whole: its `appTheme` is not imported. */
  method ShadowedImportRejected() returns (panel: SettingsComponent, feedback: Feedback)
    ensures feedback == Feedback("Invalid settings file", Failed)
    ensures panel.GetSetting("appTheme", JNull) == JString("dark")
  {
    panel := new SettingsComponent();
    panel.LoadSettings(None);
    var file := JObject(map["hasOwnProperty" := JNumber(1), "appTheme" := JString("light")]);
    feedback := panel.ImportSettings(Some(file), true);
  }
}
