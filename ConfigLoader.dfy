/** The configuration cache of the energy-management system: four JSON documents,
    each kept in its own slot, and the time of the last load that brought anything.
    A reload replaces a slot only with a document that loaded and is truthy, and keeps
    the stale value otherwise; the getters reload lazily when their own slot is empty. */
module ConfigLoader {
  import opened JsonValue
  import opened Clock

  /** What reading and parsing a configuration file yields: the document, or None when
      the file is missing, unreadable or not valid JSON. */
  type Oracle = string -> Option<Json>

  /** The four configuration documents. */
  datatype Doc = EnergyProfiles | CwuSchedule | SystemConfig | UserCorrections

  function FileName(d: Doc): string {
    match d
    case EnergyProfiles => "energy_profiles.json"
    case CwuSchedule => "cwu_schedule.json"
    case SystemConfig => "system_config.json"
    case UserCorrections => "user_corrections.json"
  }

  /** The contents of the cache: one slot per document and the last load time. */
  datatype Cache = Cache(
    energyProfiles: Option<Json>,
    cwuSchedule: Option<Json>,
    systemConfig: Option<Json>,
    userCorrections: Option<Json>,
    lastLoadTime: Option<DateTime>)
  {
    function Slot(d: Doc): Option<Json> {
      match d
      case EnergyProfiles => energyProfiles
      case CwuSchedule => cwuSchedule
      case SystemConfig => systemConfig
      case UserCorrections => userCorrections
    }
  }

  /** The cache as the module starts: every slot None. */
  const EmptyCache: Cache := Cache(None, None, None, None, None)

  /** `if data:` on a load result or a slot: present and truthy. An empty object or
      list counts as not loaded. */
  predicate Loaded(o: Option<Json>) {
    o.Some? && Truthy(o.value)
  }

  /** The invariant of the cache: a slot is empty or holds a truthy document, and the
      load time is set exactly when some document has been loaded. */
  predicate CacheValid(c: Cache) {
    (forall d: Doc :: c.Slot(d).None? || Loaded(c.Slot(d))) &&
    (c.lastLoadTime.Some? <==> exists d: Doc :: c.Slot(d).Some?)
  }

  /** A slot after one reload attempt: the new document if it loaded, else unchanged. */
  function Refreshed(slot: Option<Json>, result: Option<Json>): Option<Json> {
    if Loaded(result) then result else slot
  }

  predicate AnyLoaded(load: Oracle) {
    exists d: Doc :: Loaded(load(FileName(d)))
  }

  /** The value `reload_all_configs` returns. */
  predicate AllLoaded(load: Oracle) {
    Loaded(load(FileName(EnergyProfiles))) && Loaded(load(FileName(CwuSchedule))) &&
    Loaded(load(FileName(SystemConfig))) && Loaded(load(FileName(UserCorrections)))
  }

  /** The cache after `reload_all_configs` at instant `now`. */
  function Reloaded(c: Cache, load: Oracle, now: DateTime): Cache {
    var e := Refreshed(c.energyProfiles, load(FileName(EnergyProfiles)));
    var w := Refreshed(c.cwuSchedule, load(FileName(CwuSchedule)));
    var s := Refreshed(c.systemConfig, load(FileName(SystemConfig)));
    var u := Refreshed(c.userCorrections, load(FileName(UserCorrections)));
    Cache(e, w, s, u, if AnyLoaded(load) then Some(now) else c.lastLoadTime)
  }

  /** Per document: a reload installs what loaded and keeps the stale value otherwise. */
  lemma ReloadedSlot(c: Cache, load: Oracle, now: DateTime, d: Doc)
    ensures Loaded(load(FileName(d))) ==> Reloaded(c, load, now).Slot(d) == load(FileName(d))
    ensures !Loaded(load(FileName(d))) ==> Reloaded(c, load, now).Slot(d) == c.Slot(d)
  {
  }

  /** The reload reports success exactly when every one of the four documents loaded;
      one missing, unparsable, empty or otherwise falsy document makes it fail. */
  lemma ReloadSuccessIsConjunction(load: Oracle)
    ensures AllLoaded(load) <==> forall d: Doc :: Loaded(load(FileName(d)))
    ensures (exists d: Doc :: !Loaded(load(FileName(d)))) ==> !AllLoaded(load)
  {
    if AllLoaded(load) {
      forall d: Doc ensures Loaded(load(FileName(d))) {
        match d
        case EnergyProfiles =>
        case CwuSchedule =>
        case SystemConfig =>
        case UserCorrections =>
      }
    }
    if forall d: Doc :: Loaded(load(FileName(d))) {
      assert Loaded(load(FileName(EnergyProfiles)));
      assert Loaded(load(FileName(CwuSchedule)));
      assert Loaded(load(FileName(SystemConfig)));
      assert Loaded(load(FileName(UserCorrections)));
    }
  }

  /** The load time moves to `now` if something loaded; if nothing did, the reload
      changes nothing at all. */
  lemma ReloadStamp(c: Cache, load: Oracle, now: DateTime)
    ensures AnyLoaded(load) ==> Reloaded(c, load, now).lastLoadTime == Some(now)
    ensures !AnyLoaded(load) ==> Reloaded(c, load, now) == c
  {
    if !AnyLoaded(load) {
      assert !Loaded(load(FileName(EnergyProfiles)));
      assert !Loaded(load(FileName(CwuSchedule)));
      assert !Loaded(load(FileName(SystemConfig)));
      assert !Loaded(load(FileName(UserCorrections)));
    }
  }

  /** A reload keeps the cache invariant. */
  lemma ReloadKeepsValid(c: Cache, load: Oracle, now: DateTime)
    requires CacheValid(c)
    ensures CacheValid(Reloaded(c, load, now))
  {
    var r := Reloaded(c, load, now);
    forall d: Doc ensures r.Slot(d).None? || Loaded(r.Slot(d)) {
      ReloadedSlot(c, load, now, d);
    }
    if AnyLoaded(load) {
      var d: Doc :| Loaded(load(FileName(d)));
      ReloadedSlot(c, load, now, d);
      assert r.Slot(d).Some?;
    } else {
      ReloadStamp(c, load, now);
    }
  }

  /** Reloading twice from the same files at the same instant is reloading once. */
  lemma ReloadIdempotent(c: Cache, load: Oracle, now: DateTime)
    ensures Reloaded(Reloaded(c, load, now), load, now) == Reloaded(c, load, now)
  {
  }

  /** When all four documents load, the previous contents of the cache do not matter. */
  lemma FullReloadForgets(c: Cache, c': Cache, load: Oracle, now: DateTime)
    requires AllLoaded(load)
    ensures Reloaded(c, load, now) == Reloaded(c', load, now)
  {
    assert Loaded(load(FileName(EnergyProfiles)));
  }

  /** The cache after a getter for document `d`: reloaded only if that slot was empty. */
  function Lazy(c: Cache, d: Doc, load: Oracle, now: DateTime): Cache {
    if Loaded(c.Slot(d)) then c else Reloaded(c, load, now)
  }

  /** Under the invariant, "the slot is falsy" is "the slot is None": a getter leaves a
      filled slot's cache untouched and reloads an empty one. */
  lemma LazyReloadsOnlyEmpty(c: Cache, d: Doc, load: Oracle, now: DateTime)
    requires CacheValid(c)
    ensures c.Slot(d).Some? ==> Lazy(c, d, load, now) == c
    ensures c.Slot(d).None? ==> Lazy(c, d, load, now) == Reloaded(c, load, now)
    ensures CacheValid(Lazy(c, d, load, now))
  {
    ReloadKeepsValid(c, load, now);
  }

  /** What `get_energy_profiles(day_type)` returns for the document in the slot: None
      when nothing is loaded, the whole document without a (non-empty) day type, else the
      day's entry of the `energy_profiles` section, None when key or section is missing. */
  function SelectProfile(data: Option<Json>, dayType: Option<string>): Py<Option<Json>> {
    if !Loaded(data) then Ok(None)
    else if dayType.None? || dayType.value == "" then Ok(data)
    else
      var profiles :- Get(data.value, "energy_profiles", EmptyObject);
      var entry :- Get(profiles, dayType.value, JNull);
      Ok(FromPy(entry))
  }

  /** The selection on a document that is an object whose section is an object. */
  lemma SelectProfileOnObjects(fields: seq<(string, Json)>, dayType: string, section: seq<(string, Json)>)
    requires fields != [] && dayType != ""
    requires Lookup(fields, "energy_profiles") == Some(JObject(section))
    ensures SelectProfile(Some(JObject(fields)), Some(dayType)) ==
      Ok(match Lookup(section, dayType) case None => None case Some(v) => FromPy(v))
  {
    assert Get(JObject(fields), "energy_profiles", EmptyObject) == Ok(JObject(section));
  }

  /** Without an `energy_profiles` section every day type selects nothing. */
  lemma SelectProfileWithoutSection(fields: seq<(string, Json)>, dayType: string)
    requires fields != [] && dayType != ""
    requires "energy_profiles" !in KeysOf(fields)
    ensures SelectProfile(Some(JObject(fields)), Some(dayType)) == Ok(None)
  {
  }

  /** `get_config_status()`: the last load time and, per document, whether its slot is set. */
  datatype ConfigStatus = ConfigStatus(
    lastLoadTime: Option<DateTime>,
    energyProfiles: bool,
    cwuSchedule: bool,
    systemConfig: bool,
    userCorrections: bool)

  function Status(c: Cache): ConfigStatus {
    ConfigStatus(c.lastLoadTime, c.energyProfiles.Some?, c.cwuSchedule.Some?,
                 c.systemConfig.Some?, c.userCorrections.Some?)
  }

  /** On a valid cache the status reports a load time exactly when it reports a file. */
  lemma StatusConsistent(c: Cache)
    requires CacheValid(c)
    ensures var s := Status(c);
      s.lastLoadTime.Some? <==> (s.energyProfiles || s.cwuSchedule || s.systemConfig || s.userCorrections)
  {
    if c.lastLoadTime.Some? {
      var d: Doc :| c.Slot(d).Some?;
    } else {
      assert c.Slot(EnergyProfiles).None? && c.Slot(CwuSchedule).None?;
      assert c.Slot(SystemConfig).None? && c.Slot(UserCorrections).None?;
    }
  }

  /** The module-global cache, updated slot by slot. */
  class ConfigCache {
    var energyProfiles: Option<Json>
    var cwuSchedule: Option<Json>
    var systemConfig: Option<Json>
    var userCorrections: Option<Json>
    var lastLoadTime: Option<DateTime>

    function State(): Cache
      reads this
    {
      Cache(energyProfiles, cwuSchedule, systemConfig, userCorrections, lastLoadTime)
    }

    predicate Valid()
      reads this
    {
      CacheValid(State())
    }

    /** The cache as defined at module level: every slot None. */
    constructor ()
      ensures Valid() && State() == EmptyCache
    {
      energyProfiles, cwuSchedule, systemConfig, userCorrections := None, None, None, None;
      lastLoadTime := None;
    }

    /** `reload_all_configs()`: try all four files, install each one that loaded, stamp
        the time if any did, and report whether all did. */
    method ReloadAllConfigs(load: Oracle, now: DateTime) returns (success: bool)
      requires Valid()
      modifies this
      ensures Valid()
      ensures State() == Reloaded(old(State()), load, now)
      ensures success == AllLoaded(load)
    {
      ghost var before := State();
      var energyData := load(FileName(EnergyProfiles));
      var cwuData := load(FileName(CwuSchedule));
      var systemData := load(FileName(SystemConfig));
      var correctionsData := load(FileName(UserCorrections));

      success := true;
      var loadedFiles: seq<string> := [];

      if Loaded(energyData) {
        energyProfiles := energyData;
        loadedFiles := loadedFiles + [FileName(EnergyProfiles)];
      } else {
        success := false;
      }
      if Loaded(cwuData) {
        cwuSchedule := cwuData;
        loadedFiles := loadedFiles + [FileName(CwuSchedule)];
      } else {
        success := false;
      }
      if Loaded(systemData) {
        systemConfig := systemData;
        loadedFiles := loadedFiles + [FileName(SystemConfig)];
      } else {
        success := false;
      }
      if Loaded(correctionsData) {
        userCorrections := correctionsData;
        loadedFiles := loadedFiles + [FileName(UserCorrections)];
      } else {
        success := false;
      }

      assert loadedFiles != [] <==> AnyLoaded(load) by {
        if AnyLoaded(load) {
          var d: Doc :| Loaded(load(FileName(d)));
          match d
          case EnergyProfiles =>
          case CwuSchedule =>
          case SystemConfig =>
          case UserCorrections =>
        }
      }
      if loadedFiles != [] {
        lastLoadTime := Some(now);
      }
      ReloadKeepsValid(before, load, now);
    }

    /** `get_energy_profiles(day_type)`: reload if the slot is empty, then select. */
    method GetEnergyProfiles(dayType: Option<string>, load: Oracle, now: DateTime)
      returns (r: Py<Option<Json>>)
      requires Valid()
      modifies this
      ensures Valid()
      ensures State() == Lazy(old(State()), EnergyProfiles, load, now)
      ensures r == SelectProfile(energyProfiles, dayType)
    {
      if !Loaded(energyProfiles) {
        var _ := ReloadAllConfigs(load, now);
      }
      r := SelectProfile(energyProfiles, dayType);
    }

    /** `get_cwu_schedule()`: reload if the slot is empty, then return the slot. */
    method GetCwuSchedule(load: Oracle, now: DateTime) returns (r: Option<Json>)
      requires Valid()
      modifies this
      ensures Valid()
      ensures State() == Lazy(old(State()), CwuSchedule, load, now)
      ensures r == cwuSchedule
    {
      if !Loaded(cwuSchedule) {
        var _ := ReloadAllConfigs(load, now);
      }
      r := cwuSchedule;
    }

    /** `get_system_config()`: reload if the slot is empty, then return the slot. */
    method GetSystemConfig(load: Oracle, now: DateTime) returns (r: Option<Json>)
      requires Valid()
      modifies this
      ensures Valid()
      ensures State() == Lazy(old(State()), SystemConfig, load, now)
      ensures r == systemConfig
    {
      if !Loaded(systemConfig) {
        var _ := ReloadAllConfigs(load, now);
      }
      r := systemConfig;
    }

    /** `get_user_corrections()`: reload if the slot is empty, then return the slot. */
    method GetUserCorrections(load: Oracle, now: DateTime) returns (r: Option<Json>)
      requires Valid()
      modifies this
      ensures Valid()
      ensures State() == Lazy(old(State()), UserCorrections, load, now)
      ensures r == userCorrections
    {
      if !Loaded(userCorrections) {
        var _ := ReloadAllConfigs(load, now);
      }
      r := userCorrections;
    }

    /** `get_config_status()`: a read of the cache that changes nothing and never reloads. */
    method GetConfigStatus() returns (s: ConfigStatus)
      requires Valid()
      ensures s.lastLoadTime == lastLoadTime
      ensures s.energyProfiles == energyProfiles.Some? && s.cwuSchedule == cwuSchedule.Some?
      ensures s.systemConfig == systemConfig.Some? && s.userCorrections == userCorrections.Some?
      ensures s.lastLoadTime.Some? <==> (s.energyProfiles || s.cwuSchedule || s.systemConfig || s.userCorrections)
    {
      s := ConfigStatus(lastLoadTime, energyProfiles != None, cwuSchedule != None,
                        systemConfig != None, userCorrections != None);
      StatusConsistent(State());
    }
  }

  /** Importing the module: the empty cache followed by one reload. */
  method ImportCache(load: Oracle, now: DateTime) returns (cache: ConfigCache)
    ensures fresh(cache) && cache.Valid()
    ensures cache.State() == Reloaded(EmptyCache, load, now)
  {
    cache := new ConfigCache();
    var _ := cache.ReloadAllConfigs(load, now);
  }
}
