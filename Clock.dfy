/** The instant the core is asked about, handed in by the caller instead of read
    from the wall clock, and the two date keys the holiday calendar is matched on. */
module Clock {
  import opened PyText

  /** A local date and hour with the weekday as Python numbers it (Monday is 0). */
  datatype DateTime = DateTime(year: int, month: int, day: int, weekday: int, hour: int) {
    /** The field ranges of a `datetime` value. The weekday is not tied to the date and
        every month may have 31 days, so this admits more records than real instants;
        the properties proved over it hold in particular for the real ones. */
    predicate Valid() {
      1 <= year <= 9999 && 1 <= month <= 12 && 1 <= day <= 31 &&
      0 <= weekday <= 6 && 0 <= hour <= 23
    }
  }

  /** `strftime("%m-%d")`: the key of a fixed holiday. */
  function MonthDayKey(t: DateTime): (k: string)
    requires t.Valid()
    ensures |k| == 5 && k[2] == '-'
    ensures AllDigits(k[..2]) && DigitsValue(k[..2]) == t.month
    ensures AllDigits(k[3..]) && DigitsValue(k[3..]) == t.day
  {
    assert Pow10(2) == 100;
    ZeroPadValue(t.month, 2);
    ZeroPadValue(t.day, 2);
    var k := ZeroPad(t.month, 2) + "-" + ZeroPad(t.day, 2);
    assert k[..2] == ZeroPad(t.month, 2) && k[3..] == ZeroPad(t.day, 2);
    k
  }

  /** `strftime("%Y-%m-%d")`: the key of a movable holiday. */
  function DateKey(t: DateTime): (k: string)
    requires t.Valid()
    ensures |k| == 10 && k[4] == '-' && k[5..] == MonthDayKey(t)
    ensures AllDigits(k[..4]) && DigitsValue(k[..4]) == t.year
  {
    assert Pow10(4) == 10000;
    ZeroPadValue(t.year, 4);
    var k := ZeroPad(t.year, 4) + "-" + MonthDayKey(t);
    assert k[..4] == ZeroPad(t.year, 4) && k[5..] == MonthDayKey(t);
    k
  }

  /** Two instants share a fixed-holiday key exactly when they fall on the same
      month and day: string matching on the key is matching on the date. */
  lemma MonthDayKeyExact(a: DateTime, b: DateTime)
    requires a.Valid() && b.Valid()
    ensures MonthDayKey(a) == MonthDayKey(b) <==> a.month == b.month && a.day == b.day
  {
    assert Pow10(2) == 100;
    if MonthDayKey(a) == MonthDayKey(b) {
      assert MonthDayKey(a)[..2] == ZeroPad(a.month, 2);
      assert MonthDayKey(b)[..2] == ZeroPad(b.month, 2);
      assert MonthDayKey(a)[3..] == ZeroPad(a.day, 2);
      assert MonthDayKey(b)[3..] == ZeroPad(b.day, 2);
      ZeroPadInjective(a.month, b.month, 2);
      ZeroPadInjective(a.day, b.day, 2);
    }
  }

  /** Two instants share a movable-holiday key exactly when they fall on the same date. */
  lemma DateKeyExact(a: DateTime, b: DateTime)
    requires a.Valid() && b.Valid()
    ensures DateKey(a) == DateKey(b) <==> a.year == b.year && a.month == b.month && a.day == b.day
  {
    assert Pow10(4) == 10000;
    MonthDayKeyExact(a, b);
    if DateKey(a) == DateKey(b) {
      assert DateKey(a)[..4] == ZeroPad(a.year, 4);
      assert DateKey(b)[..4] == ZeroPad(b.year, 4);
      ZeroPadInjective(a.year, b.year, 4);
    }
  }
}
