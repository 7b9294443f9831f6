/** The UTC calendar of POSIX "Seconds Since the Epoch" (POSIX.1-2017, Base
    Definitions section 4.16), written as pure functions: `Timegm` is the
    section's formula, with its C divisions read as floor divisions so that it
    also holds before 1970, and `GmTime` is its inverse. Leap seconds do not
    exist in this time scale. */
module Calendar {

  const SecondsPerDay: int := 86400

  predicate IsLeap(y: int) { y % 4 == 0 && (y % 100 != 0 || y % 400 == 0) }

  function DaysInYear(y: int): nat { if IsLeap(y) then 366 else 365 }

  /** Length of month `m0` (0 = January) of a leap or common year. */
  function DaysInMonth(m0: int, leap: bool): nat
    requires 0 <= m0 < 12
  {
    if m0 == 1 then (if leap then 29 else 28)
    else if m0 == 3 || m0 == 5 || m0 == 8 || m0 == 10 then 30
    else 31
  }

  /** Days of the year that precede the first of month `m0`. */
  function DaysBeforeMonth(m0: int, leap: bool): nat
    requires 0 <= m0 <= 12
  {
    if m0 == 0 then 0 else DaysBeforeMonth(m0 - 1, leap) + DaysInMonth(m0 - 1, leap)
  }

  /** Days from 1970-01-01 to January 1st of year `y`: the year and leap-day
      terms of the POSIX formula, where tm_year = y - 1900. */
  function DaysBeforeYear(y: int): int
  {
    (y - 1970) * 365 + (y - 1969) / 4 - (y - 1901) / 100 + (y - 1601) / 400
  }

  /** A broken-down time as in C's `struct tm`: year counted from 1900 and
      month from 0. */
  datatype Tm = Tm(year: int, mon: int, mday: int, hour: int, min: int, sec: int)

  /** Fields in their normal ranges, as `gmtime` produces them. */
  predicate Normal(tm: Tm)
  {
    && 0 <= tm.mon < 12
    && 1 <= tm.mday <= DaysInMonth(tm.mon, IsLeap(tm.year + 1900))
    && 0 <= tm.hour < 24 && 0 <= tm.min < 60 && 0 <= tm.sec < 60
  }

  /** Seconds since the Epoch of a broken-down time; out-of-range months carry
      into the year and other fields add linearly, as `timegm` normalises. */
  function Timegm(tm: Tm): int
  {
    var y := tm.year + 1900 + tm.mon / 12;
    var m0 := tm.mon % 12;
    var days := DaysBeforeYear(y) + DaysBeforeMonth(m0, IsLeap(y)) + tm.mday - 1;
    days * SecondsPerDay + tm.hour * 3600 + tm.min * 60 + tm.sec
  }

  /** Walks from January 1st of year `y` by `days` days; yields the year reached
      and the day within it. */
  function SplitYear(days: int, y: int): (r: (int, nat))
    ensures r.1 < DaysInYear(r.0)
    ensures DaysBeforeYear(r.0) + r.1 == DaysBeforeYear(y) + days
  {
    if days >= 0 then SplitForward(days, y) else SplitBackward(days, y)
  }

  /** SplitYear for a walk forwards in time. */
  function SplitForward(days: nat, y: int): (r: (int, nat))
    ensures r.1 < DaysInYear(r.0)
    ensures DaysBeforeYear(r.0) + r.1 == DaysBeforeYear(y) + days
  {
    if days < DaysInYear(y) then (y, days)
    else
      var r := SplitForward(days - DaysInYear(y), y + 1);
      YearStep(y);
      r
  }

  /** SplitYear for a walk backwards in time. */
  function SplitBackward(days: int, y: int): (r: (int, nat))
    requires days < 0
    ensures r.1 < DaysInYear(r.0)
    ensures DaysBeforeYear(r.0) + r.1 == DaysBeforeYear(y) + days
    decreases -days
  {
    YearStep(y - 1);
    if days + DaysInYear(y - 1) >= 0 then (y - 1, days + DaysInYear(y - 1))
    else SplitBackward(days + DaysInYear(y - 1), y - 1)
  }

  /** The month `m0` holding day `yday` of the year, searching down from `m0`. */
  function SplitMonth(yday: nat, leap: bool, m0: nat): (r: (nat, nat))
    requires m0 < 12 && yday < DaysBeforeMonth(m0 + 1, leap)
    ensures r.0 <= m0 && r.1 < DaysInMonth(r.0, leap)
    ensures DaysBeforeMonth(r.0, leap) + r.1 == yday
  {
    if DaysBeforeMonth(m0, leap) <= yday then (m0, yday - DaysBeforeMonth(m0, leap))
    else SplitMonth(yday, leap, m0 - 1)
  }

  /** The broken-down UTC time of `t` seconds since the Epoch, as `gmtime`. */
  function GmTime(t: int): (tm: Tm)
    ensures Normal(tm)
  {
    var days := t / SecondsPerDay;
    var secs := t % SecondsPerDay;
    var (y, yday) := SplitYear(days, 1970);
    YearLength(y);
    var (m0, d0) := SplitMonth(yday, IsLeap(y), 11);
    Tm(y - 1900, m0, d0 + 1, secs / 3600, secs % 3600 / 60, secs % 60)
  }

  /** Each leap-day term of DaysBeforeYear grows by one exactly when the year
      that ends is a multiple of its divisor. */
  lemma LeapTermsStep(y: int)
    ensures (y - 1968) / 4 - (y - 1969) / 4 == if y % 4 == 0 then 1 else 0
    ensures (y - 1900) / 100 - (y - 1901) / 100 == if y % 100 == 0 then 1 else 0
    ensures (y - 1600) / 400 - (y - 1601) / 400 == if y % 400 == 0 then 1 else 0
  {
    assert y - 1968 == (y / 4 - 492) * 4 + y % 4;
    assert y - 1900 == (y / 100 - 19) * 100 + y % 100;
    assert y - 1600 == (y / 400 - 4) * 400 + y % 400;
  }

  /** Consecutive years start DaysInYear apart. */
  lemma YearStep(y: int)
    ensures DaysBeforeYear(y + 1) == DaysBeforeYear(y) + DaysInYear(y)
  {
    LeapTermsStep(y);
    CenturiesAreQuadrennial(y);
  }

  /** A multiple of 400 is a multiple of 100, and a multiple of 100 is a
      multiple of 4. */
  lemma CenturiesAreQuadrennial(y: int)
    ensures y % 400 == 0 ==> y % 100 == 0
    ensures y % 100 == 0 ==> y % 4 == 0
  {
    var k4, k100, k400 := y / 4, y / 100, y / 400;
    assert y == 4 * k4 + y % 4 && y == 100 * k100 + y % 100 && y == 400 * k400 + y % 400;
    if y % 400 == 0 {
      assert y % 100 == 100 * (4 * k400 - k100);
    }
    if y % 100 == 0 {
      assert y % 4 == 4 * (25 * k100 - k4);
    }
  }


  lemma {:induction false} MonthsBefore(m0: int, leap: bool)
    requires 0 <= m0 <= 12
    ensures m0 < 12 ==> DaysBeforeMonth(m0, leap) + DaysInMonth(m0, leap) <= DaysBeforeMonth(12, leap)
    decreases 12 - m0
  {
    if m0 < 11 {
      MonthsBefore(m0 + 1, leap);
    }
  }

  lemma YearLength(y: int)
    ensures DaysBeforeMonth(12, IsLeap(y)) == DaysInYear(y)
  {
    var leap := IsLeap(y);
    assert DaysBeforeMonth(1, leap) == 31;
    assert DaysBeforeMonth(2, leap) == if leap then 60 else 59;
    assert DaysBeforeMonth(3, leap) == DaysBeforeMonth(2, leap) + 31;
    assert DaysBeforeMonth(4, leap) == DaysBeforeMonth(3, leap) + 30;
    assert DaysBeforeMonth(5, leap) == DaysBeforeMonth(4, leap) + 31;
    assert DaysBeforeMonth(6, leap) == DaysBeforeMonth(5, leap) + 30;
    assert DaysBeforeMonth(7, leap) == DaysBeforeMonth(6, leap) + 31;
    assert DaysBeforeMonth(8, leap) == DaysBeforeMonth(7, leap) + 31;
    assert DaysBeforeMonth(9, leap) == DaysBeforeMonth(8, leap) + 30;
    assert DaysBeforeMonth(10, leap) == DaysBeforeMonth(9, leap) + 31;
    assert DaysBeforeMonth(11, leap) == DaysBeforeMonth(10, leap) + 30;
    assert DaysBeforeMonth(12, leap) == DaysBeforeMonth(11, leap) + 31;
  }

  lemma {:induction false} YearsOrdered(a: int, b: int)
    requires a < b
    ensures DaysBeforeYear(a) + DaysInYear(a) <= DaysBeforeYear(b)
    decreases b - a
  {
    YearStep(a);
    if a + 1 < b {
      YearsOrdered(a + 1, b);
      YearStep(a + 1);
    }
  }

  /** A day number has one (year, day-of-year) reading. */
  lemma YearUnique(y1: int, k1: nat, y2: int, k2: nat)
    requires k1 < DaysInYear(y1) && k2 < DaysInYear(y2)
    requires DaysBeforeYear(y1) + k1 == DaysBeforeYear(y2) + k2
    ensures y1 == y2 && k1 == k2
  {
    if y1 < y2 {
      YearsOrdered(y1, y2);
    } else if y2 < y1 {
      YearsOrdered(y2, y1);
    }
  }

  lemma {:induction false} MonthsOrdered(a: int, b: int, leap: bool)
    requires 0 <= a < b <= 12
    ensures DaysBeforeMonth(a, leap) + DaysInMonth(a, leap) <= DaysBeforeMonth(b, leap)
    decreases b - a
  {
    if a + 1 < b {
      MonthsOrdered(a + 1, b, leap);
    }
  }

  /** A day of the year has one (month, day-of-month) reading. */
  lemma MonthUnique(m1: int, d1: nat, m2: int, d2: nat, leap: bool)
    requires 0 <= m1 < 12 && 0 <= m2 < 12
    requires d1 < DaysInMonth(m1, leap) && d2 < DaysInMonth(m2, leap)
    requires DaysBeforeMonth(m1, leap) + d1 == DaysBeforeMonth(m2, leap) + d2
    ensures m1 == m2 && d1 == d2
  {
    if m1 < m2 {
      MonthsOrdered(m1, m2, leap);
    } else if m2 < m1 {
      MonthsOrdered(m2, m1, leap);
    }
  }

  lemma ClockSplit(secs: int)
    requires 0 <= secs < SecondsPerDay
    ensures secs / 3600 * 3600 + secs % 3600 / 60 * 60 + secs % 60 == secs
    ensures secs / 3600 < 24
  {
  }

  lemma DaySplit(days: int, secs: int)
    requires 0 <= secs < SecondsPerDay
    ensures (days * SecondsPerDay + secs) / SecondsPerDay == days
    ensures (days * SecondsPerDay + secs) % SecondsPerDay == secs
  {
  }

  /** Timegm of a broken-down time whose month needs no carry. */
  lemma TimegmInRange(tm: Tm)
    requires 0 <= tm.mon < 12
    ensures Timegm(tm) == (DaysBeforeYear(tm.year + 1900) + DaysBeforeMonth(tm.mon, IsLeap(tm.year + 1900)) + tm.mday - 1) * SecondsPerDay
                          + tm.hour * 3600 + tm.min * 60 + tm.sec
  {
    assert tm.mon / 12 == 0 && tm.mon % 12 == tm.mon;
  }

  /** `timegm` undoes `gmtime`: every instant survives the round trip. */
  lemma TimegmOfGmTime(t: int)
    ensures Timegm(GmTime(t)) == t
  {
    var tm := GmTime(t);
    var days := t / SecondsPerDay;
    var secs := t % SecondsPerDay;
    var r := SplitYear(days, 1970);
    var m := SplitMonth(r.1, IsLeap(r.0), 11) by { YearLength(r.0); }
    assert tm == Tm(r.0 - 1900, m.0, m.1 + 1, secs / 3600, secs % 3600 / 60, secs % 60);
    assert DaysBeforeYear(tm.year + 1900) + DaysBeforeMonth(tm.mon, IsLeap(tm.year + 1900)) + tm.mday - 1 == days by {
      assert DaysBeforeYear(1970) == 0;
    }
    assert tm.hour * 3600 + tm.min * 60 + tm.sec == secs by {
      ClockSplit(secs);
    }
    TimegmInRange(tm);
  }

  /** `gmtime` undoes `timegm` on normalised broken-down times. */
  lemma GmTimeOfTimegm(tm: Tm)
    requires Normal(tm)
    ensures GmTime(Timegm(tm)) == tm
  {
    TimegmInRange(tm);
    GmTimeAt(tm, Timegm(tm));
  }

  /** `gmtime` of the instant a normalised broken-down time denotes. */
  lemma GmTimeAt(tm: Tm, t: int)
    requires Normal(tm)
    requires t == (DaysBeforeYear(tm.year + 1900) + DaysBeforeMonth(tm.mon, IsLeap(tm.year + 1900)) + tm.mday - 1) * SecondsPerDay
                  + tm.hour * 3600 + tm.min * 60 + tm.sec
    ensures GmTime(t) == tm
  {
    var y := tm.year + 1900;
    var yday := DaysBeforeMonth(tm.mon, IsLeap(y)) + tm.mday - 1;
    var days := DaysBeforeYear(y) + yday;
    var secs := tm.hour * 3600 + tm.min * 60 + tm.sec;
    assert t / SecondsPerDay == days && t % SecondsPerDay == secs by {
      assert t == days * SecondsPerDay + secs;
      ClockJoin(tm.hour, tm.min, tm.sec);
      DaySplit(days, secs);
    }
    assert secs / 3600 == tm.hour && secs % 3600 / 60 == tm.min && secs % 60 == tm.sec by {
      ClockJoin(tm.hour, tm.min, tm.sec);
    }
    assert SplitYear(days, 1970) == (y, yday) by { DateOfDays(tm, yday); }
    assert yday < DaysBeforeMonth(12, IsLeap(y)) by { DateOfDays(tm, yday); }
    assert SplitMonth(yday, IsLeap(y), 11) == (tm.mon, tm.mday - 1) by { DateOfDays(tm, yday); }
    GmTimeOfDays(t, days, secs, tm, yday);
  }

  /** `gmtime` of an instant whose day and time of day split as given. */
  lemma GmTimeOfDays(t: int, days: int, secs: int, tm: Tm, yday: nat)
    requires t / SecondsPerDay == days && t % SecondsPerDay == secs
    requires secs / 3600 == tm.hour && secs % 3600 / 60 == tm.min && secs % 60 == tm.sec
    requires SplitYear(days, 1970) == (tm.year + 1900, yday)
    requires yday < DaysBeforeMonth(12, IsLeap(tm.year + 1900))
    requires SplitMonth(yday, IsLeap(tm.year + 1900), 11) == (tm.mon, tm.mday - 1)
    ensures GmTime(t) == tm
  {
  }

  /** A time of day in seconds splits back into its hour, minute and second. */
  lemma ClockJoin(h: int, m: int, s: int)
    requires 0 <= h < 24 && 0 <= m < 60 && 0 <= s < 60
    ensures 0 <= h * 3600 + m * 60 + s < SecondsPerDay
    ensures (h * 3600 + m * 60 + s) / 3600 == h
    ensures (h * 3600 + m * 60 + s) % 3600 / 60 == m
    ensures (h * 3600 + m * 60 + s) % 60 == s
  {
  }

  /** The day number of a normalised date splits back into its year, month
      and day. */
  lemma DateOfDays(tm: Tm, yday: nat)
    requires Normal(tm) && yday == DaysBeforeMonth(tm.mon, IsLeap(tm.year + 1900)) + tm.mday - 1
    ensures SplitYear(DaysBeforeYear(tm.year + 1900) + yday, 1970) == (tm.year + 1900, yday)
    ensures yday < DaysBeforeMonth(12, IsLeap(tm.year + 1900))
    ensures SplitMonth(yday, IsLeap(tm.year + 1900), 11) == (tm.mon, tm.mday - 1)
  {
    var y := tm.year + 1900;
    var leap := IsLeap(y);
    MonthsBefore(tm.mon, leap);
    YearLength(y);
    var r := SplitYear(DaysBeforeYear(y) + yday, 1970);
    assert DaysBeforeYear(1970) == 0;
    YearUnique(r.0, r.1, y, yday);
    var m := SplitMonth(yday, leap, 11);
    MonthUnique(m.0, m.1, tm.mon, tm.mday - 1, leap);
  }
}
