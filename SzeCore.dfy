/** The system manager of the energy-management system: it classifies an instant into
    a day type and a tariff band from the system configuration, assembles the status
    snapshot, and owns the two operating flags of the hot-water boiler. */
module SzeCore {
  import opened JsonValue
  import opened PyText
  import opened Clock
  import opened ConfigLoader

  /** The day types, labelled "roboczy", "sobota" and "niedziela/święto". */
  datatype DayType = Workday | Saturday | SundayOrHoliday

  /** The tariff bands, labelled "tańsza" and "droższa". */
  datatype Tariff = Cheaper | Dearer

  /** `config_data`: the four documents as the getters returned them plus the cache
      status, or `{}` when assembling it failed. Absent documents are `None` (JNull). */
  datatype ConfigData =
    | Empty
    | Fetched(energyProfiles: Json, cwuSchedule: Json, systemConfig: Json,
              userCorrections: Json, configStatus: ConfigStatus)

  /** `config_data.get('system_config', {})`. */
  function SystemConfigOf(cd: ConfigData): Json {
    if cd.Fetched? then cd.systemConfig else EmptyObject
  }

  /** `config_data.get('energy_profiles')`. */
  function EnergyOf(cd: ConfigData): Json {
    if cd.Fetched? then cd.energyProfiles else JNull
  }

  // ---------------------------------------------------------------- day type

  /** The weekday rule: Monday to Friday, Saturday, Sunday. */
  function WeekdayType(weekday: int): DayType {
    if weekday < 5 then Workday else if weekday == 5 then Saturday else SundayOrHoliday
  }

  /** `calendar.fixed_holidays` and `calendar.movable_holidays`, `[]` when absent; a
      missing or falsy system config reads as `{}`. */
  function HolidayLists(sys: Json): (r: Py<(Json, Json)>)
    ensures r.Raise? ==> r.exc == AttributeError
    ensures !Truthy(sys) ==> r == Ok((EmptyArray, EmptyArray))
    ensures Truthy(sys) && !sys.JObject? ==> r.Raise?
    ensures sys.JObject? && Truthy(sys) ==>
      var calendar := Lookup(sys.fields, "calendar");
      (calendar.None? ==> r == Ok((EmptyArray, EmptyArray))) &&
      (calendar.Some? ==> (r.Raise? <==> !calendar.value.JObject?))
  {
    var calendar :- if Truthy(sys) then Get(sys, "calendar", EmptyObject) else Ok(EmptyObject);
    var fixed :- Get(calendar, "fixed_holidays", EmptyArray);
    // `calendar` is a dict once the first `get` succeeded, so the second cannot raise
    var movable := Get(calendar, "movable_holidays", EmptyArray).value;
    Ok((fixed, movable))
  }

  /** `_get_day_type`: a date listed as a fixed (`MM-DD`) or movable (`YYYY-MM-DD`)
      holiday is a Sunday or holiday; any other date goes by its weekday. */
  function DayTypeOf(sys: Json, now: DateTime): (r: Py<DayType>)
    requires now.Valid()
    ensures HolidayLists(sys).Raise? ==> r == Raise(AttributeError)
    ensures r.Ok? && r.value != SundayOrHoliday ==> r.value == WeekdayType(now.weekday)
    ensures r.Ok? && now.weekday == 6 ==> r.value == SundayOrHoliday
  {
    var lists :- HolidayLists(sys);
    var isFixed :- Contains(lists.0, MonthDayKey(now));
    var isHoliday :- if isFixed then Ok(true) else Contains(lists.1, DateKey(now));
    Ok(if isHoliday then SundayOrHoliday else WeekdayType(now.weekday))
  }

  /** A system config holding a calendar of string lists, and nothing else. */
  function CalendarConfig(fixed: seq<string>, movable: seq<string>): Json {
    JObject([("calendar", JObject([
      ("fixed_holidays", JArray(seq(|fixed|, i requires 0 <= i < |fixed| => JStr(fixed[i])))),
      ("movable_holidays", JArray(seq(|movable|, i requires 0 <= i < |movable| => JStr(movable[i]))))]))])
  }

  lemma StringListMembership(xs: seq<string>, key: string)
    ensures JStr(key) in seq(|xs|, i requires 0 <= i < |xs| => JStr(xs[i])) <==> key in xs
  {
    var js := seq(|xs|, i requires 0 <= i < |xs| => JStr(xs[i]));
    if key in xs {
      var i :| 0 <= i < |xs| && xs[i] == key;
      assert js[i] == JStr(key);
    }
  }

  /** The day type on a calendar of string lists: a holiday when today's `MM-DD` is a
      fixed holiday or today's `YYYY-MM-DD` a movable one, whatever the weekday, and
      otherwise workday for weekdays 0-4, Saturday for 5, Sunday for 6. */
  lemma DayTypeOnCalendar(fixed: seq<string>, movable: seq<string>, now: DateTime)
    requires now.Valid()
    ensures DayTypeOf(CalendarConfig(fixed, movable), now) ==
      Ok(if MonthDayKey(now) in fixed || DateKey(now) in movable then SundayOrHoliday
         else if now.weekday < 5 then Workday
         else if now.weekday == 5 then Saturday
         else SundayOrHoliday)
  {
    var sys := CalendarConfig(fixed, movable);
    var calendar := sys.fields[0].1;
    assert Get(sys, "calendar", EmptyObject) == Ok(calendar);
    assert Get(calendar, "fixed_holidays", EmptyArray) == Ok(calendar.fields[0].1);
    assert Get(calendar, "movable_holidays", EmptyArray) == Ok(calendar.fields[1].1);
    StringListMembership(fixed, MonthDayKey(now));
    StringListMembership(movable, DateKey(now));
  }

  /** Whatever the configuration, a hit in the fixed-holiday list makes the day a
      holiday, on any weekday. */
  lemma FixedHolidayWins(sys: Json, now: DateTime, fixed: Json, movable: Json)
    requires now.Valid()
    requires HolidayLists(sys) == Ok((fixed, movable))
    requires Contains(fixed, MonthDayKey(now)) == Ok(true)
    ensures DayTypeOf(sys, now) == Ok(SundayOrHoliday)
  {
  }

  /** Whatever the configuration, a date found in neither list goes by its weekday. */
  lemma NonHolidayGoesByWeekday(sys: Json, now: DateTime, fixed: Json, movable: Json)
    requires now.Valid()
    requires HolidayLists(sys) == Ok((fixed, movable))
    requires Contains(fixed, MonthDayKey(now)) == Ok(false)
    requires Contains(movable, DateKey(now)) == Ok(false)
    ensures now.weekday < 5 ==> DayTypeOf(sys, now) == Ok(Workday)
    ensures now.weekday == 5 ==> DayTypeOf(sys, now) == Ok(Saturday)
    ensures now.weekday == 6 ==> DayTypeOf(sys, now) == Ok(SundayOrHoliday)
  {
  }

  /** A missing system config, or one without a calendar section, means empty holiday
      lists: the weekday decides and nothing is raised. */
  lemma NoCalendarGoesByWeekday(sys: Json, now: DateTime)
    requires now.Valid()
    requires !Truthy(sys) || (sys.JObject? && "calendar" !in KeysOf(sys.fields))
    ensures DayTypeOf(sys, now) == Ok(WeekdayType(now.weekday))
  {
    assert HolidayLists(sys) == Ok((EmptyArray, EmptyArray));
    assert !IsSubstring(MonthDayKey(now), "");
  }

  // ---------------------------------------------------------------- tariff

  /** The hour bounds of the cheaper night band. */
  datatype Band = Band(start: int, end: int)

  /** The tariff text of the system config, `"22:00-06:00"` when the key is absent. */
  const DefaultNightHours: string := "22:00-06:00"

  /** `tariff_g12w.cheaper_night_hours`, defaulted; a falsy system config reads as `{}`. */
  function NightHoursSetting(sys: Json): (r: Py<Json>)
    ensures r.Raise? ==> r.exc == AttributeError
    ensures !Truthy(sys) ==> r == Ok(JStr(DefaultNightHours))
    ensures sys.JObject? && "tariff_g12w" !in KeysOf(sys.fields) ==> r == Ok(JStr(DefaultNightHours))
  {
    var tariffConfig :- if Truthy(sys) then Get(sys, "tariff_g12w", EmptyObject) else Ok(EmptyObject);
    Get(tariffConfig, "cheaper_night_hours", JStr(DefaultNightHours))
  }

  /** The hour parts of `"HH:MM-HH:MM"`; None where Python raises the ValueError (an
      hour part that is no integer) or the IndexError (no `-`) that the source catches. */
  function NightHours(text: string): Option<Band> {
    var parts := Split(text, '-');
    var start := ParseInt(Split(parts[0], ':')[0]);
    if start.None? then None
    else if |parts| < 2 then None
    else
      var end := ParseInt(Split(parts[1], ':')[0]);
      if end.None? then None else Some(Band(start.value, end.value))
  }

  /** The band test: wrapping past midnight when the start hour is the later one. */
  predicate InCheapBand(hour: int, b: Band) {
    if b.start > b.end then hour >= b.start || hour < b.end
    else b.start <= hour && hour < b.end
  }

  /** `_get_current_tariff`: the cheaper band all day on Sundays and holidays, else in
      the configured night band; the dearer band otherwise and on malformed text. */
  function TariffOf(sys: Json, now: DateTime): (r: Py<Tariff>)
    requires now.Valid()
    ensures DayTypeOf(sys, now).Raise? ==> r.Raise?
    ensures DayTypeOf(sys, now) == Ok(SundayOrHoliday) ==> r == Ok(Cheaper)
    ensures r.Raise? ==> r.exc == AttributeError || DayTypeOf(sys, now).Raise?
  {
    var dayType :- DayTypeOf(sys, now);
    if dayType == SundayOrHoliday then Ok(Cheaper)
    else
      var night :- NightHoursSetting(sys);
      NightTariff(night, now.hour)
  }

  /** The tariff of a working day or Saturday at `hour` under the night-band setting:
      falsy gives the dearer band, a non-string raises on `.split`, malformed text gives
      the dearer band, and well-formed text decides by the band test. */
  function NightTariff(night: Json, hour: int): (r: Py<Tariff>)
    ensures r.Raise? <==> Truthy(night) && !night.JStr?
    ensures r.Raise? ==> r.exc == AttributeError
    ensures r == Ok(Cheaper) ==>
      night.JStr? && NightHours(night.s).Some? && InCheapBand(hour, NightHours(night.s).value)
  {
    if !Truthy(night) then Ok(Dearer)
    else if !night.JStr? then Raise(AttributeError)
    else
      match NightHours(night.s)
      case None => Ok(Dearer)
      case Some(b) => Ok(if InCheapBand(hour, b) then Cheaper else Dearer)
  }

  /** On Sundays and holidays the tariff is the cheaper one, whatever the hours say. */
  lemma HolidayIsCheaper(sys: Json, now: DateTime)
    requires now.Valid()
    requires DayTypeOf(sys, now) == Ok(SundayOrHoliday)
    ensures TariffOf(sys, now) == Ok(Cheaper)
  {
  }

  /** The first piece of a split ends at the first separator. */
  lemma {:induction false} FirstPiece(a: string, sep: char, b: string)
    requires sep !in a
    ensures Split(a + b, sep)[0] == a + Split(b, sep)[0]
    decreases |a|
  {
    if |a| > 0 {
      assert (a + b)[1..] == a[1..] + b;
      FirstPiece(a[1..], sep, b);
      assert a == [a[0]] + a[1..];
    } else {
      assert a + b == b;
    }
  }

  /** The hour texts in front of the colons are what counts; the minutes are ignored. */
  lemma NightHoursParts(startText: string, m1: string, endText: string, m2: string, s: int, e: int)
    requires '-' !in startText && ':' !in startText && '-' !in m1
    requires '-' !in endText && ':' !in endText
    requires ParseInt(startText) == Some(s) && ParseInt(endText) == Some(e)
    ensures NightHours(startText + ":" + m1 + "-" + endText + ":" + m2) == Some(Band(s, e))
  {
    var head := startText + ":" + m1;
    var tail := endText + ":" + m2;
    assert startText + ":" + m1 + "-" + endText + ":" + m2 == head + "-" + tail;
    HourPiece(startText, m1);
    FirstPiece(endText + ":", '-', m2);
    assert Split(tail, '-')[0] == endText + ":" + Split(m2, '-')[0];
    HourPiece(endText, Split(m2, '-')[0]);
    NightHoursOf(head, tail, s, e);
  }

  /** The text before the first `-` gives the start hour, the text after it the end. */
  lemma NightHoursOf(head: string, tail: string, s: int, e: int)
    requires '-' !in head
    requires ParseInt(Split(head, ':')[0]) == Some(s)
    requires ParseInt(Split(Split(tail, '-')[0], ':')[0]) == Some(e)
    ensures NightHours(head + "-" + tail) == Some(Band(s, e))
  {
    var text := head + "-" + tail;
    assert Split(text, '-') == [head] + Split(tail, '-') by {
      assert text == head + ['-'] + tail;
      SplitAtFirst(head, '-', tail);
    }
    var parts := Split(text, '-');
    assert |parts| >= 2 && parts[0] == head && parts[1] == Split(tail, '-')[0];
    NightHoursFields(text, parts, s, e);
  }

  /** The band from the two fields around the first dash. */
  lemma NightHoursFields(text: string, parts: seq<string>, s: int, e: int)
    requires parts == Split(text, '-') && |parts| >= 2
    requires ParseInt(Split(parts[0], ':')[0]) == Some(s)
    requires ParseInt(Split(parts[1], ':')[0]) == Some(e)
    ensures NightHours(text) == Some(Band(s, e))
  {
  }

  /** The text in front of the first colon. */
  lemma HourPiece(h: string, m: string)
    requires ':' !in h
    ensures Split(h + ":" + m, ':')[0] == h
  {
    SplitAtFirst(h, ':', m);
    assert h + ":" + m == h + [':'] + m;
  }

  /** An hour text followed by nothing, a colon or a dash is what the hour field reads. */
  lemma HourFieldAt(h: string, rest: string)
    requires '-' !in h && ':' !in h
    requires rest == [] || rest[0] == ':' || rest[0] == '-'
    ensures Split(Split(h + rest, '-')[0], ':')[0] == h
  {
    if rest == [] {
      HourFieldAlone(h, h + rest);
    } else if rest[0] == '-' {
      Behind(h, rest);
      HourFieldBeforeDash(h, rest[1..], h + rest);
    } else {
      Behind(h, rest);
      HourFieldBeforeColon(h, rest[1..], h + rest);
    }
  }

  lemma Behind(h: string, rest: string)
    requires rest != []
    ensures h + rest == h + [rest[0]] + rest[1..]
  {
    assert rest == [rest[0]] + rest[1..];
  }

  lemma HourFieldAlone(h: string, t: string)
    requires '-' !in h && ':' !in h
    requires t == h
    ensures Split(Split(t, '-')[0], ':')[0] == h
  {
    SplitNoSeparator(h, '-');
    SplitNoSeparator(h, ':');
  }

  lemma HourFieldBeforeDash(h: string, r: string, t: string)
    requires '-' !in h && ':' !in h
    requires t == h + ['-'] + r
    ensures Split(Split(t, '-')[0], ':')[0] == h
  {
    assert Split(t, '-')[0] == h by {
      SplitAtFirst(h, '-', r);
    }
    SplitNoSeparator(h, ':');
  }

  lemma HourFieldBeforeColon(h: string, r: string, t: string)
    requires '-' !in h && ':' !in h
    requires t == h + [':'] + r
    ensures Split(Split(t, '-')[0], ':')[0] == h
  {
    var m := Split(r, '-')[0];
    assert Split(t, '-')[0] == h + ":" + m by {
      assert t == h + ":" + r;
      FirstPiece(h + ":", '-', r);
    }
    HourPiece(h, m);
  }

  /** A start hour that `int()` rejects (Python's ValueError) makes the text malformed. */
  lemma StartHourRejected(h: string, rest: string)
    requires '-' !in h && ':' !in h
    requires rest == [] || rest[0] == ':' || rest[0] == '-'
    requires ParseInt(h).None?
    ensures NightHours(h + rest) == None
  {
    HourFieldAt(h, rest);
  }

  /** So does an end hour that `int()` rejects, whatever stands before the dash. */
  lemma EndHourRejected(start: string, h: string, rest: string)
    requires '-' !in start && '-' !in h && ':' !in h
    requires rest == [] || rest[0] == ':' || rest[0] == '-'
    requires ParseInt(h).None?
    ensures NightHours(start + "-" + h + rest) == None
  {
    var parts := Split(start + "-" + h + rest, '-');
    assert |parts| >= 2 && parts[1] == Split(h + rest, '-')[0] by {
      assert start + "-" + h + rest == start + ['-'] + (h + rest);
      SplitAtFirst(start, '-', h + rest);
    }
    HourFieldAt(h, rest);
  }

  /** A start hour with a letter after its digits. */
  const SuffixedHour: string := "22h"
  const SuffixedMinutes: string := ":00-06:00"
  const SuffixedHours: string := SuffixedHour + SuffixedMinutes

  /** A letter after the digits is a ValueError for `int()`. */
  lemma SuffixedHourRejected()
    ensures ParseInt(SuffixedHour) == None
  {
    assert |SuffixedHour| == 3 && SuffixedHour[2] == 'h';
    ParseIntRejects(SuffixedHour, 2);
  }

  /** So `"22h:00-06:00"` is malformed. */
  lemma SuffixedHourMalformed()
    ensures NightHours(SuffixedHours) == None
  {
    var h := SuffixedHour;
    assert '-' !in h && ':' !in h by {
      assert |h| == 3 && h[0] == '2' && h[1] == '2' && h[2] == 'h';
    }
    assert SuffixedMinutes[0] == ':';
    SuffixedHourRejected();
    StartHourRejected(h, SuffixedMinutes);
  }

  /** Under `"22h:00-06:00"` a working day has the dearer band, even at 23 o'clock. */
  lemma SuffixedHourExample(t: DateTime)
    requires t.Valid() && t.weekday < 5
    ensures TariffOf(TariffConfig(SuffixedHours), t) == Ok(Dearer)
  {
    SuffixedHourMalformed();
    TariffConfigOnWeekday(SuffixedHours, t);
    assert SuffixedHours[0] == '2';
  }

  /** The default band is 22 to 6. */
  lemma DefaultBand()
    ensures NightHours(DefaultNightHours) == Some(Band(22, 6))
  {
    HourTextsBand(DefaultNightHours, 22, 6);
  }

  /** A `HH:00-HH:00` text with two-digit hours reads as its band. */
  lemma HourTextsBand(text: string, s: nat, e: nat)
    requires s < 100 && e < 100
    requires text == ZeroPad(s, 2) + ":" + "00" + "-" + ZeroPad(e, 2) + ":" + "00"
    ensures NightHours(text) == Some(Band(s, e))
  {
    assert Pow10(2) == 100;
    PaddedHourTextsBand(text, s, e, 2);
  }

  /** The same for hours zero-padded to any width they fit. */
  lemma PaddedHourTextsBand(text: string, s: nat, e: nat, width: nat)
    requires 1 <= width && s < Pow10(width) && e < Pow10(width)
    requires text == ZeroPad(s, width) + ":" + "00" + "-" + ZeroPad(e, width) + ":" + "00"
    ensures NightHours(text) == Some(Band(s, e))
  {
    ZeroPadHourText(s, width);
    ZeroPadHourText(e, width);
    NightHoursParts(ZeroPad(s, width), "00", ZeroPad(e, width), "00", s, e);
  }

  /** Zero-padded hours qualify as hour texts. */
  lemma ZeroPadHourText(h: nat, width: nat)
    requires 1 <= width && h < Pow10(width)
    ensures '-' !in ZeroPad(h, width) && ':' !in ZeroPad(h, width)
    ensures ParseInt(ZeroPad(h, width)) == Some(h)
  {
    ParseZeroPad(h, width);
    DigitsHaveNoSeparators(ZeroPad(h, width));
  }

  lemma DigitsHaveNoSeparators(t: string)
    requires AllDigits(t)
    ensures '-' !in t && ':' !in t
  {
    assert forall i :: 0 <= i < |t| ==> t[i] != '-' && t[i] != ':';
  }

  /** On a day that is not a holiday, with a well-formed night band, the tariff is the
      band test's verdict. */
  lemma TariffByBand(sys: Json, now: DateTime, text: string, b: Band)
    requires now.Valid()
    requires DayTypeOf(sys, now).Ok? && DayTypeOf(sys, now).value != SundayOrHoliday
    requires NightHoursSetting(sys) == Ok(JStr(text))
    requires NightHours(text) == Some(b)
    ensures TariffOf(sys, now) == Ok(if InCheapBand(now.hour, b) then Cheaper else Dearer)
  {
    EmptyHoursMalformed();
    assert Truthy(JStr(text));
  }

  /** The empty text has no hour part. */
  lemma EmptyHoursMalformed()
    ensures NightHours("") == None
  {
    assert Split("", '-') == [""];
    assert Split("", ':') == [""];
    assert ParseSigned("") == None;
  }

  /** On a day that is not a holiday, with the night band written `S:..-E:..`, the
      tariff is the cheaper one exactly inside the band: `hour >= S or hour < E` when the
      band wraps (S > E), `S <= hour < E` otherwise; so equal bounds are never cheaper
      and the end hour is excluded. */
  lemma TariffInBand(sys: Json, now: DateTime, text: string, s: int, e: int)
    requires now.Valid()
    requires DayTypeOf(sys, now).Ok? && DayTypeOf(sys, now).value != SundayOrHoliday
    requires NightHoursSetting(sys) == Ok(JStr(text))
    requires NightHours(text) == Some(Band(s, e))
    ensures TariffOf(sys, now).Ok?
    ensures s > e ==> (TariffOf(sys, now) == Ok(Cheaper) <==> now.hour >= s || now.hour < e)
    ensures s <= e ==> (TariffOf(sys, now) == Ok(Cheaper) <==> s <= now.hour < e)
    ensures s == e ==> TariffOf(sys, now) == Ok(Dearer)
  {
    TariffByBand(sys, now, text, Band(s, e));
  }

  /** Malformed night-band text never raises; on a working day it gives the dearer band. */
  lemma MalformedHoursAreDearer(sys: Json, now: DateTime, text: string)
    requires now.Valid()
    requires DayTypeOf(sys, now).Ok? && DayTypeOf(sys, now).value != SundayOrHoliday
    requires NightHoursSetting(sys) == Ok(JStr(text))
    requires NightHours(text) == None
    ensures TariffOf(sys, now) == Ok(Dearer)
  {
  }

  /** Text without a `-` is malformed (Python's IndexError). */
  lemma NoDashIsMalformed(text: string)
    requires '-' !in text
    ensures NightHours(text) == None
  {
    SplitNoSeparator(text, '-');
  }

  /** An empty or absent-but-falsy setting also gives the dearer band, while a truthy
      non-string setting raises AttributeError (`.split` on it is not caught). */
  lemma NonStringHours(sys: Json, now: DateTime, v: Json)
    requires now.Valid()
    requires DayTypeOf(sys, now).Ok? && DayTypeOf(sys, now).value != SundayOrHoliday
    requires NightHoursSetting(sys) == Ok(v)
    ensures !Truthy(v) ==> TariffOf(sys, now) == Ok(Dearer)
    ensures Truthy(v) && !v.JStr? ==> TariffOf(sys, now) == Raise(AttributeError)
  {
  }

  /** The system config holding only a tariff text. */
  function TariffConfig(text: string): Json {
    JObject([("tariff_g12w", JObject([("cheaper_night_hours", JStr(text))]))])
  }

  /** On a weekday that is no holiday, that config's tariff is its night tariff. */
  lemma TariffConfigOnWeekday(text: string, t: DateTime)
    requires t.Valid() && t.weekday < 5
    ensures TariffOf(TariffConfig(text), t) == NightTariff(JStr(text), t.hour)
  {
    var sys := TariffConfig(text);
    assert KeysOf(sys.fields) == ["tariff_g12w"];
    NoCalendarGoesByWeekday(sys, t);
    assert DayTypeOf(sys, t) == Ok(Workday);
    var tariffConfig := sys.fields[0].1;
    assert Get(sys, "tariff_g12w", EmptyObject) == Ok(tariffConfig);
    assert NightHoursSetting(sys) == Ok(JStr(text));
  }

  /** On a weekday that is no holiday, a well-formed text in that config decides by
      its band. */
  lemma TariffConfigBand(text: string, t: DateTime, b: Band)
    requires t.Valid() && t.weekday < 5
    requires NightHours(text) == Some(b)
    ensures TariffOf(TariffConfig(text), t) == Ok(if InCheapBand(t.hour, b) then Cheaper else Dearer)
  {
    TariffConfigOnWeekday(text, t);
    EmptyHoursMalformed();
    assert Truthy(JStr(text));
  }

  /** The worked examples for a non-holiday weekday under "22:00-06:00". */
  lemma DefaultTariffExamples(t: DateTime)
    requires t.Valid() && t.weekday == 1
    ensures t.hour == 23 || t.hour == 3 ==> TariffOf(TariffConfig(DefaultNightHours), t) == Ok(Cheaper)
    ensures t.hour == 6 || t.hour == 21 ==> TariffOf(TariffConfig(DefaultNightHours), t) == Ok(Dearer)
  {
    DefaultBand();
    TariffConfigBand(DefaultNightHours, t, Band(22, 6));
  }

  /** A daytime band from 13 to 15. */
  const DayBandHours: string := "13:00-15:00"

  /** The worked examples for a non-holiday weekday under "13:00-15:00". */
  lemma DayBandTariffExamples(t: DateTime)
    requires t.Valid() && t.weekday == 1
    ensures t.hour == 14 ==> TariffOf(TariffConfig(DayBandHours), t) == Ok(Cheaper)
    ensures t.hour == 15 || t.hour == 12 ==> TariffOf(TariffConfig(DayBandHours), t) == Ok(Dearer)
  {
    HourTextsBand(DayBandHours, 13, 15);
    TariffConfigBand(DayBandHours, t, Band(13, 15));
  }

  /** The worked example for a non-holiday weekday under "garbage". */
  lemma GarbageTariffExample(t: DateTime)
    requires t.Valid() && t.weekday < 5
    ensures TariffOf(TariffConfig("garbage"), t) == Ok(Dearer)
  {
    NoDashIsMalformed("garbage");
    TariffConfigOnWeekday("garbage", t);
  }

  // ---------------------------------------------------------------- config data

  /** `list(energy.get('energy_profiles', {}).keys())` when the energy document is
      truthy, `[]` otherwise. */
  function ProfileKeys(energy: Json): (r: Py<seq<string>>)
    ensures !Truthy(energy) ==> r == Ok([])
    ensures Truthy(energy) && !energy.JObject? ==> r == Raise(AttributeError)
    ensures energy.JObject? && Truthy(energy) && "energy_profiles" !in KeysOf(energy.fields) ==> r == Ok([])
    ensures energy.JObject? && Lookup(energy.fields, "energy_profiles").Some? ==>
      var section := Lookup(energy.fields, "energy_profiles").value;
      if section.JObject? then r == Ok(KeysOf(section.fields)) else r == Raise(AttributeError)
  {
    if !Truthy(energy) then
      assert energy.JObject? ==> KeysOf(energy.fields) == [];
      Ok([])
    else
      var profiles :- Get(energy, "energy_profiles", EmptyObject);
      Keys(profiles)
  }

  /** The cache after each of `_load_config_data`'s four getters, called in this order. */
  function GetterSteps(c: Cache, load: Oracle, now: DateTime): (Cache, Cache, Cache, Cache) {
    var c1 := Lazy(c, EnergyProfiles, load, now);
    var c2 := Lazy(c1, CwuSchedule, load, now);
    var c3 := Lazy(c2, SystemConfig, load, now);
    (c1, c2, c3, Lazy(c3, UserCorrections, load, now))
  }

  /** The cache after all four getters. */
  function AfterGetters(c: Cache, load: Oracle, now: DateTime): Cache {
    GetterSteps(c, load, now).3
  }

  /** `_load_config_data` on a cache: each getter's result as it is returned, the
      status read after all four, and `{}` when listing the profile keys raises. */
  function FetchedData(c: Cache, load: Oracle, now: DateTime): ConfigData {
    var steps := GetterSteps(c, load, now);
    var c1, c2, c3, c4 := steps.0, steps.1, steps.2, steps.3;
    var energy := ToPy(SelectProfile(c1.energyProfiles, None).value);
    if ProfileKeys(energy).Ok? then
      Fetched(energy, ToPy(c2.cwuSchedule), ToPy(c3.systemConfig), ToPy(c4.userCorrections), Status(c4))
    else Empty
  }

  predicate Full(c: Cache) {
    c.energyProfiles.Some? && c.cwuSchedule.Some? && c.systemConfig.Some? && c.userCorrections.Some?
  }

  /** The four getters reload at most once in effect: a full cache is left alone, and
      any empty slot costs one reload, which the later getters only repeat to no change. */
  lemma GettersReloadAtMostOnce(c: Cache, load: Oracle, now: DateTime)
    requires CacheValid(c)
    ensures Full(c) ==> AfterGetters(c, load, now) == c
    ensures !Full(c) ==> AfterGetters(c, load, now) == Reloaded(c, load, now)
    ensures CacheValid(AfterGetters(c, load, now))
  {
    var r := Reloaded(c, load, now);
    ReloadKeepsValid(c, load, now);
    ReloadIdempotent(c, load, now);
    var c1 := Lazy(c, EnergyProfiles, load, now);
    LazyReloadsOnlyEmpty(c, EnergyProfiles, load, now);
    var c2 := Lazy(c1, CwuSchedule, load, now);
    LazyReloadsOnlyEmpty(c1, CwuSchedule, load, now);
    var c3 := Lazy(c2, SystemConfig, load, now);
    LazyReloadsOnlyEmpty(c2, SystemConfig, load, now);
    LazyReloadsOnlyEmpty(c3, UserCorrections, load, now);
    assert c1 == c || c1 == r;
    assert c2 == c || c2 == r;
    assert c3 == c || c3 == r;
  }

  /** The status in the config data agrees with the documents beside it: a document
      is reported loaded exactly when the config data holds it. */
  lemma FetchedStatusAgrees(c: Cache, load: Oracle, now: DateTime)
    requires CacheValid(c)
    ensures var cd := FetchedData(c, load, now);
      cd.Fetched? ==>
        (cd.configStatus.energyProfiles <==> cd.energyProfiles != JNull) &&
        (cd.configStatus.cwuSchedule <==> cd.cwuSchedule != JNull) &&
        (cd.configStatus.systemConfig <==> cd.systemConfig != JNull) &&
        (cd.configStatus.userCorrections <==> cd.userCorrections != JNull)
  {
    ReloadKeepsValid(c, load, now);
    ReloadIdempotent(c, load, now);
    var c1 := Lazy(c, EnergyProfiles, load, now);
    LazyReloadsOnlyEmpty(c, EnergyProfiles, load, now);
    var c2 := Lazy(c1, CwuSchedule, load, now);
    LazyReloadsOnlyEmpty(c1, CwuSchedule, load, now);
    var c3 := Lazy(c2, SystemConfig, load, now);
    LazyReloadsOnlyEmpty(c2, SystemConfig, load, now);
    LazyReloadsOnlyEmpty(c3, UserCorrections, load, now);
    GettersReloadAtMostOnce(c, load, now);
  }

  /** Listing the profile keys fails only on a truthy energy document that is no dict
      or whose `energy_profiles` section is no dict; then the config data is `{}`. */
  lemma FetchedDataEmptyWhen(c: Cache, load: Oracle, now: DateTime)
    requires CacheValid(c)
    ensures var e := Lazy(c, EnergyProfiles, load, now).energyProfiles;
      FetchedData(c, load, now).Empty? <==>
        e.Some? && (!e.value.JObject? ||
          (Lookup(e.value.fields, "energy_profiles").Some? &&
           !Lookup(e.value.fields, "energy_profiles").value.JObject?))
  {
    LazyReloadsOnlyEmpty(c, EnergyProfiles, load, now);
  }

  // ---------------------------------------------------------------- status snapshot

  /** `system_status` without its display strings. The window is the identifier the
      window lookup returned for the instant. */
  datatype Snapshot = Snapshot(
    timestamp: DateTime,
    dayType: DayType,
    window: string,
    tariff: Tariff,
    boilerFromFurnace: string,
    heatersLockedLabel: string,
    systemActive: bool,
    configLoaded: bool,
    profilesAvailable: seq<string>,
    boilerMorningPowerW: Json,
    boilerEveningPowerW: Json)

  /** The labels "WŁ" (on), "WYŁ" (off) and "TAK" (yes). */
  const LabelOn: string := "W\U{0141}"
  const LabelOff: string := "WY\U{0141}"
  const LabelYes: string := "TAK"

  /** `boiler.default_total_power`, `{}` wherever a falsy value stands in the way. */
  function PowerDefaults(sys: Json): (r: Py<Json>)
    ensures r.Raise? ==> r.exc == AttributeError
    ensures !Truthy(sys) ==> r == Ok(EmptyObject)
    ensures Truthy(sys) && !sys.JObject? ==> r.Raise?
    ensures sys.JObject? && Truthy(sys) ==>
      var boiler := Lookup(sys.fields, "boiler");
      (boiler.None? ==> r == Ok(EmptyObject)) &&
      (boiler.Some? && Truthy(boiler.value) ==> (r.Raise? <==> !boiler.value.JObject?)) &&
      (boiler.Some? && !Truthy(boiler.value) ==> r == Ok(EmptyObject)) &&
      (boiler.Some? && Truthy(boiler.value) && boiler.value.JObject? ==>
        var power := Lookup(boiler.value.fields, "default_total_power");
        (power.None? ==> r == Ok(EmptyObject)) &&
        (power.Some? ==> r == Ok(power.value)))
  {
    var boiler :- if Truthy(sys) then Get(sys, "boiler", EmptyObject) else Ok(EmptyObject);
    if Truthy(boiler) then Get(boiler, "default_total_power", EmptyObject) else Ok(EmptyObject)
  }

  /** The coordinates `_get_current_window` falls back to. */
  const DefaultCoordinates: string := "51.290050, 22.818633"

  /** The coordinates entry `_get_current_window` reads before its `try`, from the
      system config its getter returns (`or {}`). Both `get`s stand outside the `try`,
      so a system config or `pv_installation` that is no dict raises AttributeError;
      parsing the entry inside the `try` cannot raise, whatever it holds. */
  function WindowCoordinates(sysDoc: Option<Json>): (r: Py<Json>)
    ensures r.Raise? ==> r.exc == AttributeError
    ensures !Loaded(sysDoc) ==> r == Ok(JStr(DefaultCoordinates))
    ensures Loaded(sysDoc) && !sysDoc.value.JObject? ==> r.Raise?
    ensures Loaded(sysDoc) && sysDoc.value.JObject? ==>
      var pv := Lookup(sysDoc.value.fields, "pv_installation");
      (pv.None? ==> r == Ok(JStr(DefaultCoordinates))) &&
      (pv.Some? ==> (r.Raise? <==> !pv.value.JObject?))
  {
    var sys := if Loaded(sysDoc) then sysDoc.value else EmptyObject;
    var pv :- Get(sys, "pv_installation", EmptyObject);
    Get(pv, "coordinates", JStr(DefaultCoordinates))
  }

  /** The cache after `_update_system_status`: the window lookup calls the lazy
      `get_system_config()`, which it reaches once the power defaults and the day type
      were evaluated without raising. */
  function StatusCache(cd: ConfigData, c: Cache, load: Oracle, now: DateTime): Cache
    requires now.Valid()
  {
    var sys := SystemConfigOf(cd);
    if PowerDefaults(sys).Ok? && DayTypeOf(sys, now).Ok? then Lazy(c, SystemConfig, load, now) else c
  }

  /** Taking a snapshot reloads the cache only when its system config slot is empty,
      then exactly once, and keeps the cache invariant. */
  lemma SnapshotReloadsOnlyEmpty(cd: ConfigData, c: Cache, load: Oracle, now: DateTime)
    requires CacheValid(c) && now.Valid()
    ensures c.systemConfig.Some? ==> StatusCache(cd, c, load, now) == c
    ensures StatusCache(cd, c, load, now) == c || StatusCache(cd, c, load, now) == Reloaded(c, load, now)
    ensures c.systemConfig.None? && PowerDefaults(SystemConfigOf(cd)).Ok? && DayTypeOf(SystemConfigOf(cd), now).Ok?
      ==> StatusCache(cd, c, load, now) == Reloaded(c, load, now)
    ensures CacheValid(StatusCache(cd, c, load, now))
  {
    LazyReloadsOnlyEmpty(c, SystemConfig, load, now);
    ReloadKeepsValid(c, load, now);
  }

  /** `_update_system_status`'s snapshot of the instant `now`, in the order Python
      evaluates it: the power defaults, the day type, the window lookup's coordinates
      (read from `sysDoc`, the system config its getter returns), the tariff, the
      profile keys, then the two powers; the first of them to raise is the outcome. */
  function ComputeStatus(cd: ConfigData, sysDoc: Option<Json>, now: DateTime, window: string): Py<Snapshot>
    requires now.Valid()
  {
    var sys := SystemConfigOf(cd);
    var power :- PowerDefaults(sys);
    var dayType :- DayTypeOf(sys, now);
    var coordinates :- WindowCoordinates(sysDoc);
    var tariff :- TariffOf(sys, now);
    var energy := EnergyOf(cd);
    var profiles :- ProfileKeys(energy);
    var morning :- Get(power, "morning_watts", JInt(0));
    // `power` is a dict once the first `get` succeeded, so the second cannot raise
    var evening := Get(power, "evening_watts", JInt(0)).value;
    Ok(Snapshot(now, dayType, window, tariff, LabelOn, LabelYes, true, Truthy(energy), profiles,
                morning, evening))
  }

  /** A snapshot is taken exactly when the power defaults are a dict, the window lookup
      finds its coordinates entry, the tariff (and with it the day type) is defined, and
      the profile keys can be listed; it then
      reports the instant, the classifiers' verdicts, the hard-coded labels `WŁ` and
      `TAK`, the truthiness of the energy document and its profile keys. */
  lemma SnapshotContents(cd: ConfigData, sysDoc: Option<Json>, now: DateTime, window: string)
    requires now.Valid()
    ensures var sys := SystemConfigOf(cd);
      ComputeStatus(cd, sysDoc, now, window).Ok? <==>
        PowerDefaults(sys).Ok? && PowerDefaults(sys).value.JObject? &&
        WindowCoordinates(sysDoc).Ok? && TariffOf(sys, now).Ok? && ProfileKeys(EnergyOf(cd)).Ok?
    ensures var sys := SystemConfigOf(cd);
      var r := ComputeStatus(cd, sysDoc, now, window);
      r.Ok? ==>
        r.value.timestamp == now && r.value.window == window &&
        Ok(r.value.dayType) == DayTypeOf(sys, now) && Ok(r.value.tariff) == TariffOf(sys, now) &&
        r.value.boilerFromFurnace == LabelOn && r.value.heatersLockedLabel == LabelYes &&
        r.value.systemActive &&
        r.value.configLoaded == Truthy(EnergyOf(cd)) &&
        Ok(r.value.profilesAvailable) == ProfileKeys(EnergyOf(cd))
  {
  }

  /** Each boiler power is 0 unless the `default_total_power` dict names it; the value
      it names is taken as it stands. */
  lemma PowersDefaultToZero(cd: ConfigData, sysDoc: Option<Json>, now: DateTime, window: string)
    requires now.Valid()
    requires ComputeStatus(cd, sysDoc, now, window).Ok?
    ensures var power := PowerDefaults(SystemConfigOf(cd)).value;
      var s := ComputeStatus(cd, sysDoc, now, window).value;
      power.JObject? &&
      ("morning_watts" !in KeysOf(power.fields) ==> s.boilerMorningPowerW == JInt(0)) &&
      ("evening_watts" !in KeysOf(power.fields) ==> s.boilerEveningPowerW == JInt(0)) &&
      ("morning_watts" in KeysOf(power.fields) ==>
        Some(s.boilerMorningPowerW) == Lookup(power.fields, "morning_watts")) &&
      ("evening_watts" in KeysOf(power.fields) ==>
        Some(s.boilerEveningPowerW) == Lookup(power.fields, "evening_watts"))
  {
    SnapshotContents(cd, sysDoc, now, window);
    var power := PowerDefaults(SystemConfigOf(cd)).value;
    var s := ComputeStatus(cd, sysDoc, now, window).value;
    assert Ok(s.boilerMorningPowerW) == Get(power, "morning_watts", JInt(0));
    assert Ok(s.boilerEveningPowerW) == Get(power, "evening_watts", JInt(0));
  }

  /** With no boiler section (or a falsy system config) both powers are 0. */
  lemma NoBoilerMeansZeroPower(sys: Json)
    requires !Truthy(sys) || (sys.JObject? && "boiler" !in KeysOf(sys.fields))
    ensures PowerDefaults(sys) == Ok(EmptyObject)
  {
  }

  /** A system config holding only `{"boiler": {"default_total_power":
      {"morning_watts": m, "evening_watts": e}}}`. */
  function BoilerConfig(morning: Json, evening: Json): Json {
    JObject([("boiler", JObject([("default_total_power",
      JObject([("morning_watts", morning), ("evening_watts", evening)]))]))])
  }

  /** That config's power defaults are its `default_total_power` dict. */
  lemma BoilerConfigPowers(morning: Json, evening: Json)
    ensures var power := PowerDefaults(BoilerConfig(morning, evening));
      power.Ok? && power.value.JObject? &&
      KeysOf(power.value.fields) == ["morning_watts", "evening_watts"] &&
      Lookup(power.value.fields, "morning_watts") == Some(morning) &&
      Lookup(power.value.fields, "evening_watts") == Some(evening)
  {
    var sys := BoilerConfig(morning, evening);
    var power := JObject([("morning_watts", morning), ("evening_watts", evening)]);
    assert Lookup(sys.fields, "boiler") == Some(JObject([("default_total_power", power)]));
    assert PowerDefaults(sys) == Ok(power);
    assert KeysOf(power.fields) == ["morning_watts", "evening_watts"];
  }

  /** Under that config a snapshot is taken exactly when the window lookup and the
      profile keys succeed, and it reports the configured powers as they stand. */
  lemma ConfiguredBoilerPowers(cd: ConfigData, sysDoc: Option<Json>, now: DateTime,
                               window: string, morning: Json, evening: Json)
    requires now.Valid() && SystemConfigOf(cd) == BoilerConfig(morning, evening)
    ensures var r := ComputeStatus(cd, sysDoc, now, window);
      (r.Ok? <==> WindowCoordinates(sysDoc).Ok? && ProfileKeys(EnergyOf(cd)).Ok?) &&
      (r.Ok? ==> r.value.boilerMorningPowerW == morning && r.value.boilerEveningPowerW == evening)
  {
    var sys := BoilerConfig(morning, evening);
    BoilerConfigPowers(morning, evening);
    assert TariffOf(sys, now).Ok? by {
      assert KeysOf(sys.fields) == ["boiler"];
      UnconfiguredTariff(sys, now);
    }
    SnapshotContents(cd, sysDoc, now, window);
    if ComputeStatus(cd, sysDoc, now, window).Ok? {
      PowersDefaultToZero(cd, sysDoc, now, window);
    }
  }

  /** On `{}` config data only the window lookup can raise: otherwise the weekday
      decides the day type, the default band 22 to 6 (or the holiday rule) the tariff,
      nothing is loaded and both powers are 0. */
  lemma EmptyConfigSnapshot(sysDoc: Option<Json>, now: DateTime, window: string)
    requires now.Valid()
    ensures ComputeStatus(Empty, sysDoc, now, window) ==
      if WindowCoordinates(sysDoc).Raise? then Raise(AttributeError)
      else
        Ok(Snapshot(now, WeekdayType(now.weekday), window,
                    if WeekdayType(now.weekday) == SundayOrHoliday || now.hour >= 22 || now.hour < 6
                    then Cheaper else Dearer,
                    LabelOn, LabelYes, true, false, [], JInt(0), JInt(0)))
  {
    var sys := EmptyObject;
    UnconfiguredTariff(sys, now);
    assert PowerDefaults(sys) == Ok(EmptyObject);
    assert ProfileKeys(JNull) == Ok([]);
    SnapshotContents(Empty, sysDoc, now, window);
  }

  /** Without a calendar or tariff section (or with a falsy system config) the weekday
      decides the day type and the default band (or the holiday rule) the tariff. */
  lemma UnconfiguredTariff(sys: Json, now: DateTime)
    requires now.Valid()
    requires !Truthy(sys) ||
      (sys.JObject? && "calendar" !in KeysOf(sys.fields) && "tariff_g12w" !in KeysOf(sys.fields))
    ensures DayTypeOf(sys, now) == Ok(WeekdayType(now.weekday))
    ensures TariffOf(sys, now) ==
      Ok(if WeekdayType(now.weekday) == SundayOrHoliday || now.hour >= 22 || now.hour < 6
         then Cheaper else Dearer)
  {
    NoCalendarGoesByWeekday(sys, now);
    if WeekdayType(now.weekday) != SundayOrHoliday {
      DefaultBand();
      assert NightHoursSetting(sys) == Ok(JStr(DefaultNightHours));
      TariffByBand(sys, now, DefaultNightHours, Band(22, 6));
    }
  }

  /** `_update_system_status` as its text stands: the tariff and window helpers are
      nested inside `_get_day_type` after its returns, so the manager has no
      `_get_current_window` and looking it up raises AttributeError once the power
      defaults and the day type are evaluated. */
  function ComputeStatusAsWritten(cd: ConfigData, now: DateTime): Py<Snapshot>
    requires now.Valid()
  {
    var sys := SystemConfigOf(cd);
    var power :- PowerDefaults(sys);
    var dayType :- DayTypeOf(sys, now);
    Raise(AttributeError)
  }

  /** As written, no snapshot is ever taken, not even from `{}` config data and an empty
      system config slot, where the intended snapshot exists; so the manager can never
      be constructed. */
  lemma AsWrittenNeverSnapshots(cd: ConfigData, now: DateTime, window: string)
    requires now.Valid()
    ensures ComputeStatusAsWritten(cd, now).Raise?
    ensures cd == Empty ==>
      ComputeStatusAsWritten(cd, now) == Raise(AttributeError) && ComputeStatus(cd, None, now, window).Ok?
  {
    if cd == Empty {
      EmptyConfigSnapshot(None, now, window);
      NoCalendarGoesByWeekday(EmptyObject, now);
    }
  }

  // ---------------------------------------------------------------- the manager

  /** The reply of `toggle_cwu_boiler`: `status` and `cwz_z_kotla`. */
  datatype Ack = Ack(status: string, boilerFromFurnace: string)

  /** `SystemManager`: the config data, the latest snapshot (`{}` until one is taken,
      here None) with its instant, and the two boiler flags. */
  class SystemManager {
    var systemStatus: Option<Snapshot>
    var configData: ConfigData
    var lastUpdate: Option<DateTime>
    var cwuBoilerEnabled: bool
    var heatersLocked: bool

    /** An enabled boiler keeps the heaters locked; held config data lists its profile
        keys; a snapshot carries the instant of the last update and the fixed labels. */
    predicate Valid()
      reads this
    {
      (cwuBoilerEnabled ==> heatersLocked) &&
      (configData.Fetched? ==> ProfileKeys(configData.energyProfiles).Ok?) &&
      (systemStatus.Some? <==> lastUpdate.Some?) &&
      (systemStatus.Some? ==>
        systemStatus.value.timestamp == lastUpdate.value &&
        systemStatus.value.boilerFromFurnace == LabelOn &&
        systemStatus.value.heatersLockedLabel == LabelYes &&
        systemStatus.value.systemActive)
    }

    /** The attributes `__init__` sets before loading. The flags are not set yet at that
        point; false stands in for them until construction completes. */
    constructor Blank()
      ensures Valid()
      ensures systemStatus == None && configData == Empty && lastUpdate == None
      ensures !cwuBoilerEnabled && !heatersLocked
    {
      systemStatus := None;
      configData := Empty;
      lastUpdate := None;
      cwuBoilerEnabled := false;
      heatersLocked := false;
    }

    /** `_load_config_data()`: the four getters and the status, kept unless listing the
        profile keys raises, in which case the config data becomes `{}`. */
    method LoadConfigData(cache: ConfigCache, load: Oracle, now: DateTime)
      requires Valid() && cache.Valid()
      modifies this, cache
      ensures Valid() && cache.Valid()
      ensures cache.State() == AfterGetters(old(cache.State()), load, now)
      ensures configData == FetchedData(old(cache.State()), load, now)
      ensures systemStatus == old(systemStatus) && lastUpdate == old(lastUpdate)
      ensures cwuBoilerEnabled == old(cwuBoilerEnabled) && heatersLocked == old(heatersLocked)
    {
      var e := cache.GetEnergyProfiles(None, load, now);
      var energy := ToPy(e.value);
      var cwu := cache.GetCwuSchedule(load, now);
      var sys := cache.GetSystemConfig(load, now);
      var corrections := cache.GetUserCorrections(load, now);
      var status := cache.GetConfigStatus();
      if ProfileKeys(energy).Ok? {
        configData := Fetched(energy, ToPy(cwu), ToPy(sys), ToPy(corrections), status);
      } else {
        configData := Empty;
      }
    }

    /** `_update_system_status()`: take the snapshot of `now` and stamp it; the window
        lookup calls the cache's lazy system config getter on the way. When taking the
        snapshot raises, nothing is assigned and the exception is returned. */
    method UpdateSystemStatus(cache: ConfigCache, load: Oracle, now: DateTime, window: string)
      returns (raised: Option<PyExc>)
      requires Valid() && cache.Valid() && now.Valid()
      modifies this, cache
      ensures Valid() && cache.Valid()
      ensures cache.State() == StatusCache(old(configData), old(cache.State()), load, now)
      ensures var r := ComputeStatus(old(configData), cache.State().systemConfig, now, window);
        if r.Ok? then systemStatus == Some(r.value) && lastUpdate == Some(now) && raised == None
        else systemStatus == old(systemStatus) && lastUpdate == old(lastUpdate) && raised == Some(r.exc)
      ensures configData == old(configData)
      ensures cwuBoilerEnabled == old(cwuBoilerEnabled) && heatersLocked == old(heatersLocked)
    {
      var sys := SystemConfigOf(configData);
      var power := PowerDefaults(sys);
      var dayType := DayTypeOf(sys, now);
      if power.Raise? {
        return Some(power.exc);
      }
      if dayType.Raise? {
        return Some(dayType.exc);
      }
      var sysDoc := cache.GetSystemConfig(load, now);
      var r := ComputeStatus(configData, sysDoc, now, window);
      if r.Raise? {
        return Some(r.exc);
      }
      SnapshotContents(configData, sysDoc, now, window);
      systemStatus := Some(r.value);
      lastUpdate := Some(now);
      raised := None;
    }

    /** The last step of `SystemManager()`: both flags set, nothing else changed. */
    method EnableBoiler()
      requires Valid()
      modifies this
      ensures Valid() && cwuBoilerEnabled && heatersLocked
      ensures systemStatus == old(systemStatus) && lastUpdate == old(lastUpdate)
      ensures configData == old(configData)
    {
      cwuBoilerEnabled := true;
      heatersLocked := true;
    }

    /** `SystemManager()`: load, take the first snapshot, and only then set both flags;
        the exception of a failing snapshot escapes the constructor. */
    static method Create(cache: ConfigCache, load: Oracle, now: DateTime, window: string)
      returns (r: Py<SystemManager>)
      requires cache.Valid() && now.Valid()
      modifies cache
      ensures cache.Valid()
      ensures var cd := FetchedData(old(cache.State()), load, now);
        cache.State() == StatusCache(cd, AfterGetters(old(cache.State()), load, now), load, now)
      ensures var cd := FetchedData(old(cache.State()), load, now);
        var s := ComputeStatus(cd, cache.State().systemConfig, now, window);
        (r.Raise? <==> s.Raise?) && (r.Raise? ==> r.exc == s.exc) &&
        (r.Ok? ==>
          fresh(r.value) && r.value.Valid() && r.value.configData == cd &&
          r.value.systemStatus == Some(s.value) && r.value.lastUpdate == Some(now) &&
          r.value.cwuBoilerEnabled && r.value.heatersLocked)
    {
      ghost var c0 := cache.State();
      ghost var cd := FetchedData(c0, load, now);
      ghost var loaded := AfterGetters(c0, load, now);
      var m := new SystemManager.Blank();
      m.LoadConfigData(cache, load, now);
      assert m.configData == cd && cache.State() == loaded;
      var raised := m.UpdateSystemStatus(cache, load, now, window);
      ghost var s := ComputeStatus(cd, cache.State().systemConfig, now, window);
      assert cache.State() == StatusCache(cd, loaded, load, now);
      if raised.Some? {
        assert s.Raise? && raised.value == s.exc;
        return Raise(raised.value);
      }
      assert s.Ok? && m.systemStatus == Some(s.value);
      m.EnableBoiler();
      r := Ok(m);
    }

    /** `refresh_data()`: the getters again (which reload only what is missing), then a
        new snapshot. */
    method RefreshData(cache: ConfigCache, load: Oracle, now: DateTime, window: string)
      returns (raised: Option<PyExc>)
      requires Valid() && cache.Valid() && now.Valid()
      modifies this, cache
      ensures Valid() && cache.Valid()
      ensures configData == FetchedData(old(cache.State()), load, now)
      ensures cache.State() == StatusCache(configData, AfterGetters(old(cache.State()), load, now), load, now)
      ensures var r := ComputeStatus(configData, cache.State().systemConfig, now, window);
        if r.Ok? then systemStatus == Some(r.value) && lastUpdate == Some(now) && raised == None
        else systemStatus == old(systemStatus) && lastUpdate == old(lastUpdate) && raised == Some(r.exc)
      ensures cwuBoilerEnabled == old(cwuBoilerEnabled) && heatersLocked == old(heatersLocked)
    {
      LoadConfigData(cache, load, now);
      raised := UpdateSystemStatus(cache, load, now, window);
    }

    /** `toggle_cwu_boiler(enabled)`: set the boiler flag, lock the heaters when enabling
        (disabling leaves them as they were), take a new snapshot, and acknowledge with
        the new boiler label, unless the snapshot raises after the flags are set. */
    method ToggleCwuBoiler(cache: ConfigCache, load: Oracle, enabled: bool, now: DateTime, window: string)
      returns (r: Py<Ack>)
      requires Valid() && cache.Valid() && now.Valid()
      modifies this, cache
      ensures Valid() && cache.Valid()
      ensures cwuBoilerEnabled == enabled
      ensures heatersLocked == (enabled || old(heatersLocked))
      ensures configData == old(configData)
      ensures cache.State() == StatusCache(configData, old(cache.State()), load, now)
      ensures var s := ComputeStatus(configData, cache.State().systemConfig, now, window);
        if s.Ok? then
          systemStatus == Some(s.value) && lastUpdate == Some(now) &&
          r == Ok(Ack("success", if enabled then LabelOn else LabelOff))
        else
          systemStatus == old(systemStatus) && lastUpdate == old(lastUpdate) && r == Raise(s.exc)
    {
      cwuBoilerEnabled := enabled;
      if enabled {
        heatersLocked := true;
      }
      var raised := UpdateSystemStatus(cache, load, now, window);
      if raised.Some? {
        return Raise(raised.value);
      }
      r := Ok(Ack("success", if enabled then LabelOn else LabelOff));
    }

    /** `get_system_info()`: the latest snapshot, read only. */
    method GetSystemInfo() returns (s: Option<Snapshot>)
      requires Valid()
      ensures s == systemStatus
      ensures s.Some? ==> s.value.boilerFromFurnace == LabelOn && s.value.heatersLockedLabel == LabelYes
      ensures s.Some? <==> lastUpdate.Some?
    {
      s := systemStatus;
    }

    /** `get_config_data()`: the config data, read only. */
    method GetConfigData() returns (cd: ConfigData)
      requires Valid()
      ensures cd == configData
      ensures cd.Fetched? ==> ProfileKeys(cd.energyProfiles).Ok?
    {
      cd := configData;
    }
  }
}
