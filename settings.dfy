/**
 * The settings store shared by the whole dashboard: API credentials, the
 * display units, and the derived `isConfigured` flag, kept in memory and
 * mirrored into browser storage under one key.
 */
module SettingsContext {
  import opened Wrappers

  datatype DistanceUnit = Kilometers | Miles
  datatype WeightUnit = Kg | Lbs

  /** The unit's name as the settings hold it and the prompts show it. */
  function DistanceUnitName(u: DistanceUnit): (r: string)
    ensures u == Kilometers ==> r == "kilometers"
    ensures u == Miles ==> r == "miles"
  {
    match u
    case Kilometers => "kilometers"
    case Miles => "miles"
  }

  /** The unit's name as the settings hold it and the prompts show it. */
  function WeightUnitName(u: WeightUnit): (r: string)
    ensures u == Kg ==> r == "kg"
    ensures u == Lbs ==> r == "lbs"
  {
    match u
    case Kg => "kg"
    case Lbs => "lbs"
  }

  datatype Settings = Settings(
    stravaClientId: string,
    stravaClientSecret: string,
    openAiApiKey: string,
    hevyApiKey: string,
    distanceUnit: DistanceUnit,
    weightUnit: WeightUnit,
    isConfigured: bool)

  /**
   * The argument of `updateSettings`: any subset of the settings except
   * `isConfigured`; None is a key the caller did not pass.
   */
  datatype SettingsPatch = SettingsPatch(
    stravaClientId: Option<string>,
    stravaClientSecret: Option<string>,
    openAiApiKey: Option<string>,
    hevyApiKey: Option<string>,
    distanceUnit: Option<DistanceUnit>,
    weightUnit: Option<WeightUnit>)

  const SettingsKey: string := "workoutBinderSettings"

  /** The settings before anything is entered, and after they are cleared. */
  const DefaultSettings: Settings := Settings("", "", "", "", Kilometers, Kg, false)

  /** The three credentials without which the dashboard cannot work; the Hevy key is optional. */
  predicate HasCredentials(s: Settings) {
    s.stravaClientId != [] && s.stravaClientSecret != [] && s.openAiApiKey != []
  }

  /** The flag agrees with the credentials it summarises. */
  predicate Consistent(s: Settings) {
    s.isConfigured == HasCredentials(s)
  }

  /**
   * The update of `updateSettings`: the passed keys override the previous
   * values, and `isConfigured` is recomputed from the three credentials.
   */
  function Merge(prev: Settings, patch: SettingsPatch): (r: Settings)
    ensures r.stravaClientId == patch.stravaClientId.GetOr(prev.stravaClientId)
    ensures r.stravaClientSecret == patch.stravaClientSecret.GetOr(prev.stravaClientSecret)
    ensures r.openAiApiKey == patch.openAiApiKey.GetOr(prev.openAiApiKey)
    ensures r.hevyApiKey == patch.hevyApiKey.GetOr(prev.hevyApiKey)
    ensures r.distanceUnit == patch.distanceUnit.GetOr(prev.distanceUnit)
    ensures r.weightUnit == patch.weightUnit.GetOr(prev.weightUnit)
    ensures r.isConfigured <==> r.stravaClientId != [] && r.stravaClientSecret != [] && r.openAiApiKey != []
  {
    var updated := Settings(
      patch.stravaClientId.GetOr(prev.stravaClientId),
      patch.stravaClientSecret.GetOr(prev.stravaClientSecret),
      patch.openAiApiKey.GetOr(prev.openAiApiKey),
      patch.hevyApiKey.GetOr(prev.hevyApiKey),
      patch.distanceUnit.GetOr(prev.distanceUnit),
      patch.weightUnit.GetOr(prev.weightUnit),
      prev.isConfigured);
    updated.(isConfigured := HasCredentials(updated))
  }

  const EmptyPatch: SettingsPatch := SettingsPatch(None, None, None, None, None, None)

  /** An empty update changes nothing but repairs the flag. */
  lemma EmptyPatchRepairsFlag(prev: Settings)
    ensures Merge(prev, EmptyPatch) == prev.(isConfigured := HasCredentials(prev))
    ensures Consistent(prev) ==> Merge(prev, EmptyPatch) == prev
  {
  }

  /** Applying the same update twice is the same as applying it once. */
  lemma MergeIdempotent(prev: Settings, patch: SettingsPatch)
    ensures Merge(Merge(prev, patch), patch) == Merge(prev, patch)
  {
  }

  /** The Hevy key and the units never decide whether the dashboard is configured. */
  lemma OptionalKeysIrrelevant(prev: Settings, key: Option<string>, d: Option<DistanceUnit>, w: Option<WeightUnit>)
    ensures Merge(prev, SettingsPatch(None, None, None, key, d, w)).isConfigured == HasCredentials(prev)
  {
  }

  /** `saved ? JSON.parse(saved) : defaults`: an empty or missing entry gives the defaults. */
  function InitialSettings(saved: Option<string>, decode: string -> Settings): (s: Settings)
    ensures saved.None? || saved.value == [] ==> s == DefaultSettings && Consistent(s)
    ensures saved.Some? && saved.value != [] ==> s == decode(saved.value)
  {
    if saved.Some? && saved.value != [] then decode(saved.value) else DefaultSettings
  }

  /**
   * The provider's state. The persistence effect runs after every change
   * of the settings object, and the handlers below always produce a new
   * object, so each method ends with the storage write the effect makes.
   */
  class SettingsProvider {
    const encode: Settings -> string
    var settings: Settings
    var store: map<string, string>

    /** Storage mirrors the settings in memory. */
    predicate Valid()
      reads this
    {
      SettingsKey in store && store[SettingsKey] == encode(settings)
    }

    /** Mounting the provider: read the saved entry, then the first run of the effect writes it back. */
    constructor (initialStore: map<string, string>, decode: string -> Settings, encode: Settings -> string)
      ensures Valid()
      ensures settings == InitialSettings(if SettingsKey in initialStore then Some(initialStore[SettingsKey]) else None, decode)
      ensures store == initialStore[SettingsKey := encode(settings)]
      ensures this.encode == encode
    {
      this.encode := encode;
      var saved := if SettingsKey in initialStore then Some(initialStore[SettingsKey]) else None;
      var s := InitialSettings(saved, decode);
      settings := s;
      store := initialStore[SettingsKey := encode(s)];
    }

    /** `updateSettings` followed by the persistence effect. */
    method UpdateSettings(patch: SettingsPatch)
      requires Valid()
      modifies this
      ensures settings == Merge(old(settings), patch)
      ensures Consistent(settings)
      ensures store == old(store)[SettingsKey := encode(settings)]
      ensures Valid()
    {
      settings := Merge(settings, patch);
      store := store[SettingsKey := encode(settings)];
    }

    /** `clearSettings` followed by the persistence effect: every credential is forgotten. */
    method ClearSettings()
      requires Valid()
      modifies this
      ensures settings == DefaultSettings
      ensures !settings.isConfigured && Consistent(settings)
      ensures store == old(store)[SettingsKey := encode(DefaultSettings)]
      ensures Valid()
    {
      settings := DefaultSettings;
      store := store[SettingsKey := encode(settings)];
    }
  }
}
