# Energy-management core: configuration cache and system manager

This project is a Dafny model of the decision core of the SZE energy-management system. It has two parts.

**The configuration cache** (`config_loader.py`) holds four JSON documents:
- the energy profiles;
- the hot-water (CWU) schedule;
- the system configuration;
- the user corrections.

It also holds the time of the last load that brought anything in. A reload installs each document that loaded and is truthy. It keeps the stale value of each document that did not load. It reports success only when all four loaded. Each getter reloads only when its own slot is empty.

**The system manager** (`sze_core.py`, class `SystemManager`) does four things:
- It classifies an instant into a day type. A holiday from the configured calendar wins; otherwise the weekday decides.
- It classifies the instant into a tariff band: the cheaper band all day on Sundays and holidays, otherwise the configured night band (`"HH:MM-HH:MM"`, hours only, possibly wrapping past midnight).
- It assembles the status snapshot.
- It owns two boiler flags: enabling the furnace-fed hot water locks the heaters.

Files, modules and what they model:

| file | module | contents |
|---|---|---|
| `JsonValue.dfy` | `JsonValue` | Parsed documents. The Python operations used on them: truthiness, `dict.get`, `keys()` and `in`. `Py<T>` stands for a value or a raised exception. |
| `PyText.dfy` | `PyText` | The `str.split` and `int()` operations, and zero-padded decimal fields. |
| `Clock.dfy` | `Clock` | The instant as a record, and the `%m-%d` / `%Y-%m-%d` keys. |
| `ConfigLoader.dfy` | `ConfigLoader` | The cache as a value (`Cache`, `Reloaded`, `Lazy`), and the class `ConfigCache` whose methods update the five fields in place. |
| `SzeCore.dfy` | `SzeCore` | The classifiers, the config data and the snapshot as functions. The class `SystemManager`. |

## How the model is built

Shapes and exceptions:
- Documents are `Json` values. Python's `None` is `JNull`, and a cache slot is an `Option<Json>`.
- An expression that Python would answer with an exception on an ill-shaped document yields `Raise(AttributeError)` or `Raise(TypeError)`. Examples are `.get` on a list, `in` on a number, and `.split` on a non-string. This is an outcome, not a precondition, so every document shape is covered.

Inputs that stand in for I/O and the clock:
- Reading a file is an input `load: string -> Option<Json>`, the oracle. `None` means the file is missing, unreadable or not JSON.
- The current instant is an input `now: DateTime` (year, month, day, weekday with Monday as 0, hour). One call sees one oracle and one instant, also across the reloads it triggers.
- The daily window identifier is an input string. The steps of the window lookup before it are modelled: the lazy `get_system_config()` call and the two `get`s that can raise.

How each operation is specified:
- Each state-changing method is proved against a function of the old state. For example, `ConfigCache.ReloadAllConfigs` ensures `State() == Reloaded(old(State()), load, now)`, and `SystemManager.LoadConfigData` ensures `configData == FetchedData(old(cache.State()), load, now)`.
- The properties are proved about those functions.

Where the code and its design description differ, the model follows the code:
- `refresh_data` calls `_load_config_data`, which only uses the lazy getters. So a refresh reloads only when a slot is empty; it is not an unconditional reload (sze_core.py:172-176, 38-47). `SystemManager.RefreshData` models this.
- A getter reloads when its own slot is falsy, not when the whole cache is empty (config_loader.py:104, 121, 128, 135).
- A document that parses to a falsy value (`{}`, `[]`, `0`, `""`) counts as not loaded (config_loader.py:64-90).
- A snapshot can raise on an ill-shaped system configuration, for example a truthy `boiler` entry that is not a dict (sze_core.py:65-66). The constructor, the refresh and the toggle then raise. So the snapshot does not "never fail".

## Model

| member | source | states |
|---|---|---|
| `JsonValue.Get` | sze_core.py:64-66 | `d.get(k, default)` raises AttributeError exactly on a non-dict. On a dict it gives the default when `k` is absent and otherwise a value stored under `k`. |
| `JsonValue.Truthy` | sze_core.py:65-66 | Python's truthiness as the `if x:` tests evaluate it: `None`, `false`, zero and the empty string, list and dict are falsy. The definitions of `ConfigLoader.Loaded`, `SzeCore.PowerDefaults` and `SzeCore.NightTariff` build on it. |
| `JsonValue.Lookup` | config_loader.py:114 | A key is found exactly when it is among the dict's keys, and what is found is stored under it. |
| `JsonValue.Keys` | sze_core.py:88 | `.keys()` raises AttributeError exactly on a non-dict. On a dict it lists the keys. |
| `JsonValue.Contains` | sze_core.py:109 | `key in v` is list membership on a list, key membership on a dict and an occurrence at some position on a string. Any other type raises TypeError. |
| `JsonValue.SubstringAt` | sze_core.py:109 | The recursive substring test agrees with "occurs at some index". |
| `PyText.Split` | sze_core.py:156-157 | `split` gives at least one piece. The pieces join back to the text and contain no separator. |
| `PyText.SplitAtFirst` | sze_core.py:156-157 | A separator-free prefix is the first piece, and the split goes on with the rest. |
| `PyText.ParseInt` | sze_core.py:156-157 | `int()` on text: an optional sign and decimal digits between whitespace. `ParseIntShape`, `ParseLayout`, `AcceptedChars`, `ParseIntRejects`, `ParseShow`, `ParsePadded` and `ParseZeroPad` specify it. |
| `PyText.ParseIntShape` | sze_core.py:156-157 | `int()` accepts a text exactly when it is whitespace, an optional sign, a non-empty run of decimal digits and whitespace, in this order. The value is then the signed value of those digits. |
| `PyText.ParseLayout` | sze_core.py:156-157 | Any whitespace, sign, digits and whitespace put together parse to the signed value of the digits. |
| `PyText.LayoutOfParsed` | sze_core.py:156-157 | A text that `int()` accepts splits into whitespace, sign, digits and whitespace. |
| `PyText.AcceptedChars` | sze_core.py:156-157 | A text that `int()` accepts holds only whitespace, digits and signs. |
| `PyText.ParseIntRejects` | sze_core.py:156-157 | One character that is no whitespace, digit or sign makes `int()` raise its ValueError. |
| `PyText.ParseShow` | sze_core.py:156-157 | `int(str(n)) == n` for every integer. |
| `PyText.ParsePadded` | sze_core.py:156-157 | `int()` accepts any ASCII whitespace around a number. |
| `PyText.ParseZeroPad` | sze_core.py:156-157 | `int()` reads a zero-padded field back as the number when it fits the width. |
| `PyText.ZeroPadInjective` | sze_core.py:106-107 | Two numbers that fit the width have equal padding exactly when they are equal. |
| `Clock.MonthDayKey` | sze_core.py:106 | The `%m-%d` key has five characters with `-` in the middle. The first two are the month's decimal digits and the last two the day's. |
| `Clock.DateKey` | sze_core.py:107 | The `%Y-%m-%d` key has ten characters. The first four are the year's decimal digits, and it ends with the `%m-%d` key. |
| `Clock.MonthDayKeyExact` | sze_core.py:106-109 | Two instants share the fixed-holiday key exactly when they share month and day. |
| `Clock.DateKeyExact` | sze_core.py:107-109 | Two instants share the movable-holiday key exactly when they share the date. |
| `ConfigLoader.CacheValid` | config_loader.py:64-93 | The cache invariant: every slot is empty or truthy, and a load time is set exactly when some slot is. `ReloadKeepsValid`, `LazyReloadsOnlyEmpty` and every `ConfigCache` method keep it. |
| `ConfigLoader.Loaded` | config_loader.py:64 | A load counts when it gives a truthy document. `ReloadedSlot` and `CacheValid` build on it. |
| `ConfigLoader.Refreshed` | config_loader.py:64-90 | One slot's reload step. `ReloadedSlot` specifies it. |
| `ConfigLoader.AllLoaded` | config_loader.py:61-96 | The value `reload_all_configs` returns. `ReloadSuccessIsConjunction` specifies it. |
| `ConfigLoader.AnyLoaded` | config_loader.py:92 | The `if loaded_files:` test. `ReloadStamp` specifies it. |
| `ConfigLoader.Reloaded` | config_loader.py:45-96 | `reload_all_configs` on the cache's contents. `ReloadedSlot`, `ReloadStamp`, `ReloadKeepsValid`, `ReloadIdempotent` and `FullReloadForgets` specify it. |
| `ConfigLoader.ReloadedSlot` | config_loader.py:64-90 | After a reload, a slot holds the new document if it loaded and truthy, and keeps its previous value otherwise. |
| `ConfigLoader.ReloadSuccessIsConjunction` | config_loader.py:61-96 | The reload reports success exactly when all four documents loaded. One falsy or missing document makes it false. |
| `ConfigLoader.ReloadStamp` | config_loader.py:92-93 | The load time becomes `now` when anything loaded. When nothing did, the reload changes nothing. |
| `ConfigLoader.ReloadKeepsValid` | config_loader.py:64-93 | A reload keeps the invariant: every slot is empty or truthy, and the load time is set exactly when some slot is. |
| `ConfigLoader.ReloadIdempotent` | config_loader.py:45-96 | Reloading twice from the same files at the same instant is reloading once. |
| `ConfigLoader.FullReloadForgets` | config_loader.py:64-90 | When all four documents load, the previous cache contents do not matter. |
| `ConfigLoader.Lazy` | config_loader.py:104-138 | A getter's reload-if-empty step. `LazyReloadsOnlyEmpty` specifies it. |
| `ConfigLoader.LazyReloadsOnlyEmpty` | config_loader.py:104-138 | A getter leaves the cache untouched when its slot is filled. It reloads when the slot is empty, and keeps the invariant. |
| `ConfigLoader.SelectProfile` | config_loader.py:107-117 | `get_energy_profiles`' choice of what to return. `SelectProfileOnObjects` and `SelectProfileWithoutSection` specify it. |
| `ConfigLoader.SelectProfileOnObjects` | config_loader.py:111-114 | With a day type, the selection is the day's entry of the `energy_profiles` section. A missing entry or a `null` gives None. |
| `ConfigLoader.SelectProfileWithoutSection` | config_loader.py:113-114 | Without an `energy_profiles` section, every day type selects None. |
| `ConfigLoader.Status` | config_loader.py:140-151 | `get_config_status` on the cache's contents. `StatusConsistent` specifies it. |
| `ConfigLoader.StatusConsistent` | config_loader.py:140-151 | On a valid cache, the status shows a load time exactly when it shows a loaded file. |
| `ConfigLoader.ConfigCache.constructor` | config_loader.py:17-23 | The cache starts with every slot None, which is valid. |
| `ConfigLoader.ConfigCache.ReloadAllConfigs` | config_loader.py:45-96 | Slot by slot, the new state is `Reloaded` of the old one. The result is the conjunction of the four loads, and the invariant is kept. |
| `ConfigLoader.ConfigCache.GetEnergyProfiles` | config_loader.py:98-117 | The getter reloads only if its slot is empty. It returns None without a document, the whole document without a day type, and the day's profile otherwise. |
| `ConfigLoader.ConfigCache.GetCwuSchedule` | config_loader.py:119-124 | The getter reloads only if its slot is empty, then returns the slot. |
| `ConfigLoader.ConfigCache.GetSystemConfig` | config_loader.py:126-131 | The getter reloads only if its slot is empty, then returns the slot. |
| `ConfigLoader.ConfigCache.GetUserCorrections` | config_loader.py:133-138 | The getter reloads only if its slot is empty, then returns the slot. |
| `ConfigLoader.ConfigCache.GetConfigStatus` | config_loader.py:140-151 | The status changes nothing. It reports the load time and, per slot, whether it is set; the two agree. |
| `ConfigLoader.ImportCache` | config_loader.py:153-156 | Importing the module gives the empty cache reloaded once. |
| `SzeCore.HolidayLists` | sze_core.py:99-103 | A falsy system config or a missing calendar gives two empty lists. A truthy system config that is no dict raises AttributeError, and so does a calendar entry that is no dict. |
| `SzeCore.DayTypeOf` | sze_core.py:96-118 | The holiday lists' AttributeError propagates. A day type other than Sunday/holiday is the weekday's, and a Sunday is always Sunday/holiday. |
| `SzeCore.DayTypeOnCalendar` | sze_core.py:96-118 | On a calendar of string lists, today's `MM-DD` among the fixed holidays or `YYYY-MM-DD` among the movable ones gives Sunday/holiday, whatever the weekday. Otherwise 0-4 gives workday, 5 Saturday and 6 Sunday. |
| `SzeCore.FixedHolidayWins` | sze_core.py:105-110 | For any configuration, a hit in the fixed list makes the day a holiday. |
| `SzeCore.NonHolidayGoesByWeekday` | sze_core.py:109-118 | For any configuration, a date found in neither list goes by its weekday. |
| `SzeCore.WeekdayType` | sze_core.py:113-118 | The weekday rule. `DayTypeOnCalendar`, `NonHolidayGoesByWeekday` and `NoCalendarGoesByWeekday` state that it decides every non-holiday. |
| `SzeCore.NoCalendarGoesByWeekday` | sze_core.py:99-118 | A missing system config or calendar section means empty lists. The weekday decides and nothing raises. |
| `SzeCore.NightHoursSetting` | sze_core.py:149-153 | A falsy system config or a missing `tariff_g12w` gives `"22:00-06:00"`. Only AttributeError can be raised. |
| `SzeCore.NightHours` | sze_core.py:156-157 | The hours of `"HH:MM-HH:MM"`, or None where Python raises the caught ValueError or IndexError. `NightHoursParts`, `HourTextsBand`, `DefaultBand`, `NoDashIsMalformed`, `EmptyHoursMalformed`, `StartHourRejected` and `EndHourRejected` specify it. |
| `SzeCore.NightHoursOf` | sze_core.py:156-157 | The start hour is read from the text before the first `-`, the end hour from the text after it up to the next `-`. |
| `SzeCore.NightHoursFields` | sze_core.py:156-157 | Two parsable hour fields around the first dash give their band. |
| `SzeCore.HourFieldAt` | sze_core.py:156-157 | An hour text followed by nothing, a colon or a dash is exactly what the hour field reads. |
| `SzeCore.StartHourRejected` | sze_core.py:156-166 | A start hour that `int()` rejects makes the text malformed, so the caught ValueError gives the dearer band. |
| `SzeCore.EndHourRejected` | sze_core.py:157-166 | An end hour that `int()` rejects makes the text malformed, whatever start hour stands before the dash. |
| `SzeCore.SuffixedHourRejected` | sze_core.py:156 | `int("22h")` raises ValueError. |
| `SzeCore.SuffixedHourMalformed` | sze_core.py:156-166 | `"22h:00-06:00"` is malformed. |
| `SzeCore.SuffixedHourExample` | sze_core.py:149-170 | Under `"22h:00-06:00"` a working day has the dearer band at every hour. |
| `SzeCore.TariffOf` | sze_core.py:139-170 | The day type's raise propagates, and a Sunday or holiday gives the cheaper tariff. Any other raise is an AttributeError. |
| `SzeCore.NightTariff` | sze_core.py:154-170 | It raises exactly on a truthy setting that is no string; the exception is AttributeError. The cheaper tariff needs a well-formed text whose band holds the hour. |
| `SzeCore.HolidayIsCheaper` | sze_core.py:142-146 | On a Sunday or holiday the tariff is the cheaper one. |
| `SzeCore.NightHoursParts` | sze_core.py:156-157 | Only the hour texts before the colons count; the minutes are ignored. |
| `SzeCore.DefaultBand` | sze_core.py:153 | The default `"22:00-06:00"` is the band 22 to 6. |
| `SzeCore.HourTextsBand` | sze_core.py:156-157 | A `HH:00-HH:00` text with two-digit hours reads as its band. |
| `SzeCore.TariffByBand` | sze_core.py:149-170 | On a non-holiday with a well-formed band, the tariff is the band test's verdict. |
| `SzeCore.InCheapBand` | sze_core.py:159-165 | The band test. `TariffInBand` states it for both orders of the bounds. |
| `SzeCore.TariffInBand` | sze_core.py:159-170 | With start > end, the tariff is cheaper exactly when `hour >= start or hour < end`. Otherwise it is cheaper exactly when `start <= hour < end`. So equal bounds give the dearer band. |
| `SzeCore.MalformedHoursAreDearer` | sze_core.py:154-170 | Text whose hour parts do not parse never raises and gives the dearer band. |
| `SzeCore.NoDashIsMalformed` | sze_core.py:157-166 | Text without a `-` is malformed (IndexError). |
| `SzeCore.EmptyHoursMalformed` | sze_core.py:156-166 | The empty text is malformed. |
| `SzeCore.NonStringHours` | sze_core.py:153-157 | A falsy setting gives the dearer band. A truthy non-string raises AttributeError, which is not caught. |
| `SzeCore.TariffConfigOnWeekday` | sze_core.py:149-153 | On a weekday without a calendar, the configured text is what the tariff reads. |
| `SzeCore.TariffConfigBand` | sze_core.py:149-170 | On a weekday without a calendar, a well-formed text decides by its band. |
| `SzeCore.DefaultTariffExamples` | sze_core.py:153-162 | Under `"22:00-06:00"`: hours 23 and 3 are cheaper, hours 6 and 21 are dearer. |
| `SzeCore.DayBandTariffExamples` | sze_core.py:163-165 | Under `"13:00-15:00"`: hour 14 is cheaper, hours 15 and 12 are dearer. |
| `SzeCore.GarbageTariffExample` | sze_core.py:166-170 | Under `"garbage"` the tariff is dearer. |
| `SzeCore.SystemConfigOf` | sze_core.py:64 | `config_data.get('system_config', {})`. `SnapshotContents` and `EmptyConfigSnapshot` specify what the snapshot takes from it. |
| `SzeCore.EnergyOf` | sze_core.py:87 | `config_data.get('energy_profiles')`. `SnapshotContents` and `EmptyConfigSnapshot` specify what the snapshot takes from it. |
| `SzeCore.ProfileKeys` | sze_core.py:88 | The profile keys are `[]` for a falsy document and raise on a truthy non-dict. They are `[]` without a section, the section's keys for a dict section, and raise otherwise. |
| `SzeCore.GetterSteps` | sze_core.py:41-45 | The four getters' steps in order. `GettersReloadAtMostOnce` specifies them. |
| `SzeCore.AfterGetters` | sze_core.py:41-47 | The cache after the four getters. `GettersReloadAtMostOnce` specifies it. |
| `SzeCore.FetchedData` | sze_core.py:38-57 | The config data `_load_config_data` produces. `FetchedStatusAgrees` and `FetchedDataEmptyWhen` specify it. |
| `SzeCore.GettersReloadAtMostOnce` | sze_core.py:41-47 | The four getters leave a full cache alone. Otherwise they amount to exactly one reload, and they keep the invariant. |
| `SzeCore.FetchedStatusAgrees` | sze_core.py:41-47 | In the config data, the status reports a document as loaded exactly when the data holds it. |
| `SzeCore.FetchedDataEmptyWhen` | sze_core.py:49-57 | The config data becomes `{}` exactly when the energy document is no dict, or when its `energy_profiles` section is no dict. |
| `SzeCore.PowerDefaults` | sze_core.py:64-66 | A falsy system config, a missing or falsy `boiler` entry gives `{}`. A truthy system config that is no dict raises AttributeError, and so does a truthy `boiler` entry that is no dict. A truthy `boiler` dict gives its `default_total_power` entry, or `{}` when it has none. |
| `SzeCore.WindowCoordinates` | sze_core.py:123-133 | The coordinates read outside the `try`. Without a loaded system config they are the default. Otherwise a system config or `pv_installation` entry that is no dict raises AttributeError; the parsing inside the `try` never raises. |
| `SzeCore.StatusCache` | sze_core.py:123 | The cache after a snapshot attempt. `SnapshotReloadsOnlyEmpty` specifies it. |
| `SzeCore.SnapshotReloadsOnlyEmpty` | config_loader.py:126-131 | The window lookup's getter leaves a filled system config slot alone. Otherwise it amounts to one reload or nothing, and it keeps the invariant. |
| `SzeCore.ComputeStatus` | sze_core.py:59-94 | The intended snapshot. `SnapshotContents`, `PowersDefaultToZero`, `ConfiguredBoilerPowers` and `EmptyConfigSnapshot` specify it. |
| `SzeCore.SnapshotContents` | sze_core.py:59-94 | A snapshot exists exactly when the power defaults are a dict, the window lookup finds its coordinates, the tariff is defined and the profile keys can be listed. It carries the instant, the classifiers' verdicts, the fixed `WŁ`/`TAK` labels, the truthiness of the energy document and its profile keys. |
| `SzeCore.PowersDefaultToZero` | sze_core.py:64-91 | Each boiler power is 0 unless `default_total_power` names it; a named value is taken as it stands. |
| `SzeCore.NoBoilerMeansZeroPower` | sze_core.py:64-66 | With no boiler section, the power defaults are `{}`. |
| `SzeCore.BoilerConfigPowers` | sze_core.py:64-66 | Under `{"boiler": {"default_total_power": {"morning_watts": m, "evening_watts": e}}}` the power defaults are that inner dict. |
| `SzeCore.ConfiguredBoilerPowers` | sze_core.py:59-94 | Under that system config a snapshot exists exactly when the window lookup and the profile keys succeed. Its morning and evening powers are then `m` and `e` as configured. |
| `SzeCore.UnconfiguredTariff` | sze_core.py:99-170 | Without a calendar and a `tariff_g12w` section, or with a falsy system config, the weekday decides the day type. The tariff is cheaper on a Sunday or holiday and in the default band 22 to 6, and dearer otherwise. |
| `SzeCore.EmptyConfigSnapshot` | sze_core.py:59-94 | On `{}` config data only the window lookup can raise. Otherwise the snapshot has the weekday's day type, the tariff of the default band, nothing loaded and zero powers. |
| `SzeCore.ComputeStatusAsWritten` | sze_core.py:78-170 | The snapshot as the text stands: it raises AttributeError once the power defaults and the day type are evaluated. `AsWrittenNeverSnapshots` specifies it. |
| `SzeCore.AsWrittenNeverSnapshots` | sze_core.py:78-170 | As written, no snapshot is ever taken, even where the intended one exists. |
| `SzeCore.SystemManager.Blank` | sze_core.py:26-29 | The blank manager has `{}` config data and no snapshot. |
| `SzeCore.SystemManager.LoadConfigData` | sze_core.py:38-57 | The cache goes through the four getters, and the config data is what they return, or `{}`. |
| `SzeCore.SystemManager.UpdateSystemStatus` | sze_core.py:59-137 | The cache goes through the window lookup's getter once the power defaults and the day type are evaluated. The snapshot is taken from the system config that getter returns, and stamped. When taking it raises, nothing is assigned. |
| `SzeCore.SystemManager.EnableBoiler` | sze_core.py:34-35 | Both flags are set and nothing else changes. |
| `SzeCore.SystemManager.Create` | sze_core.py:26-36 | Construction loads, takes the first snapshot and only then sets both flags. The cache goes through the four getters and then the window lookup's getter. A raising snapshot makes construction raise. |
| `SzeCore.SystemManager.RefreshData` | sze_core.py:172-176 | A refresh runs the lazy getters and then makes a new snapshot, whose window lookup runs the system config getter; the flags are unchanged. |
| `SzeCore.SystemManager.ToggleCwuBoiler` | sze_core.py:202-212 | The boiler flag is set. Enabling locks the heaters; disabling leaves them as they were. A new snapshot is taken, with the cache going through the window lookup's getter. The reply is `success` with `WŁ`/`WYŁ`, unless the snapshot raises. |
| `SzeCore.SystemManager.GetSystemInfo` | sze_core.py:178-180 | It returns the snapshot, with its fixed labels, and changes nothing. |
| `SzeCore.SystemManager.GetConfigData` | sze_core.py:182-184 | It returns the config data, whose profile keys can be listed, and changes nothing. |

## Left out

- Reading files (`_load_json_file`, config_loader.py:25-43) is the input oracle `load`: filesystem access, encoding and JSON parsing are not modelled.
- The wall clock (`datetime.now()`, sze_core.py:61; config_loader.py:93) is the input `now`; the load time is stored as that instant, not as its `isoformat` text.
- `_get_current_window` (sze_core.py:128-137) parses the coordinates as floats inside a `try` that catches everything, and then calls `daily_windows.get_current_window`. `daily_windows` is not part of this model. The window identifier is an input string, and the float parsing, which cannot raise, is not modelled. The lookup's getter call and its two `get`s (lines 123-127) are modelled.
- The display strings of the snapshot (`isoformat`, `strftime`, the Polish weekday names, sze_core.py:69-77, 85) are locale-dependent library formatting. The snapshot keeps the instant itself.
- `calculate_balance` (sze_core.py:186-200) is a stub returning constants.
- Logging calls.
- The module-level singleton (sze_core.py:215) is `SystemManager.Create`. The import-time reload (config_loader.py:153-156) is `ImportCache`.
- Every reload within one call sees the same oracle and the same instant. Python re-reads the files and takes a later `datetime.now()` at each getter's reload, so a file that changes between two getters of one `_load_config_data` call, or the later stamp, is not modelled.
- Concurrency: every call runs to completion, and the returned dicts are values, not shared references.
- `PyText.ParseInt`: does not accept `_` digit separators, non-ASCII digits or non-ASCII whitespace, which Python's `int()` does.
- `Clock.DateKey`: zero-pads the year to four digits. Some platforms' `%Y` does not pad years below 1000.
- `JsonValue.Lookup`: objects are key-ordered field lists and the first matching field wins. `json.load` keeps the last of duplicate keys.
- `JsonValue.Json`: JSON `NaN` and `Infinity` floats are not distinguished; floats matter only for truthiness here.
- The snapshot's `cwz_z_kotla` and `grzalki_zablokowane` are hard-coded `WŁ` and `TAK` (sze_core.py:82-83), as written; they do not follow the flags.
- `SzeCore.SystemManager.Blank`: the two flags do not exist yet at that point in Python; false stands in for them until `Create` sets both to true.

## Findings

| source | as written | input that shows it | evidently intended | confidence | as-written member | corrected member |
|---|---|---|---|---|---|---|
| sze_core.py:120-170 | `_get_current_window` and `_get_current_tariff` are indented inside `_get_day_type`, after its returns. So the manager has no such methods, and `self._get_current_window(now)` at line 79 raises AttributeError once the power defaults and the day type are evaluated. Construction, refresh and toggle all raise, and so does the module-level instance at line 215. | `{}` config data at any valid instant | Both are methods of `SystemManager`. The tariff is lines 141-142 followed by 144-170. | high; not executed | `SzeCore.ComputeStatusAsWritten` (with `SzeCore.AsWrittenNeverSnapshots`) | `SzeCore.ComputeStatus` (with `SzeCore.TariffOf`, `SzeCore.EmptyConfigSnapshot`) |
