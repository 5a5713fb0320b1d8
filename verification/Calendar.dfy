/** Days and instants: the proleptic Gregorian calendar from year 0, with its 400-year leap rule. */
module Calendar {
  import opened Cursor

  function DaysBeforeYear(y: int): int
    decreases y
  {
    if y <= 0 then 0 else DaysBeforeYear(y - 1) + if Leap(y - 1) then 366 else 365
  }

  function DaysBeforeMonth(month: int, year: int): int
    decreases month
  {
    if month <= 1 then 0 else DaysBeforeMonth(month - 1, year) + DaysIn(month - 1, year)
  }

  /** Nanoseconds since the start of year 0, UTC. */
  function Instant(t: Time): int {
    var days := DaysBeforeYear(t.year) + DaysBeforeMonth(t.month, t.year) + t.day - 1;
    (((days * 24 + t.hour) * 60 + t.minute - t.offset) * 60 + t.second) * 1_000_000_000 + t.nanos
  }

  lemma {:induction false} YearsGrow(y: nat, z: nat)
    requires y <= z
    ensures DaysBeforeYear(y) <= DaysBeforeYear(z)
    decreases z
  {
    if y < z {
      YearsGrow(y, z - 1);
    }
  }

  lemma {:induction false} MonthsGrow(m: int, n: int, y: int)
    requires 1 <= m <= n
    ensures DaysBeforeMonth(m, y) <= DaysBeforeMonth(n, y)
    decreases n
  {
    if m < n {
      MonthsGrow(m, n - 1, y);
    }
  }

  lemma MonthsFillYear(y: int)
    ensures DaysBeforeMonth(13, y) == if Leap(y) then 366 else 365
  {
    var feb := DaysIn(2, y);
    assert DaysBeforeMonth(2, y) == 31 && DaysBeforeMonth(3, y) == 31 + feb;
    assert DaysBeforeMonth(4, y) == 62 + feb;
    assert DaysBeforeMonth(5, y) == 92 + feb;
    assert DaysBeforeMonth(6, y) == 123 + feb;
    assert DaysBeforeMonth(7, y) == 153 + feb;
    assert DaysBeforeMonth(8, y) == 184 + feb;
    assert DaysBeforeMonth(9, y) == 215 + feb;
    assert DaysBeforeMonth(10, y) == 245 + feb;
    assert DaysBeforeMonth(11, y) == 276 + feb;
    assert DaysBeforeMonth(12, y) == 306 + feb;
    assert DaysBeforeMonth(13, y) == 337 + feb;
  }

  function DayNumber(t: Time): int {
    DaysBeforeYear(t.year) + DaysBeforeMonth(t.month, t.year) + t.day - 1
  }

  /** A day lies inside its month, and its month inside its year. */
  lemma DayInYear(t: Time)
    requires ValidTime(t)
    ensures DaysBeforeYear(t.year) <= DayNumber(t) < DaysBeforeYear(t.year + 1)
    ensures DayNumber(t) < DaysBeforeYear(t.year) + DaysBeforeMonth(t.month + 1, t.year)
  {
    MonthsGrow(1, t.month, t.year);
    MonthsGrow(t.month + 1, 13, t.year);
    MonthsFillYear(t.year);
    assert DaysBeforeYear(t.year + 1) == DaysBeforeYear(t.year) + if Leap(t.year) then 366 else 365;
    hide DaysBeforeYear, Leap;
  }

  predicate EarlierDate(a: Time, b: Time) {
    a.year < b.year || (a.year == b.year && (a.month < b.month || (a.month == b.month && a.day < b.day)))
  }

  lemma EarlierDateLower(a: Time, b: Time)
    requires ValidTime(a) && ValidTime(b) && EarlierDate(a, b)
    ensures DayNumber(a) < DayNumber(b)
  {
    DayInYear(a);
    DayInYear(b);
    hide DaysBeforeYear;
    if a.year < b.year {
      YearsGrow(a.year + 1, b.year);
    } else if a.month < b.month {
      MonthsGrow(a.month + 1, b.month, b.year);
    }
  }

  /** The time of day, in nanoseconds. */
  function Clock(t: Time): int {
    ((t.hour * 60 + t.minute) * 60 + t.second) * 1_000_000_000 + t.nanos
  }

  lemma InstantIs(t: Time)
    ensures Instant(t) == DayNumber(t) * 86_400_000_000_000 + Clock(t) - t.offset * 60_000_000_000
  {
    hide DaysBeforeYear, DaysBeforeMonth;
  }

  /** Instants order times of one zone as their dates and clocks do. */
  lemma InstantOrders(a: Time, b: Time)
    requires ValidTime(a) && ValidTime(b) && a.offset == b.offset
    ensures Instant(a) < Instant(b)
            <==> EarlierDate(a, b) || (!EarlierDate(b, a) && Clock(a) < Clock(b))
  {
    InstantIs(a);
    InstantIs(b);
    if EarlierDate(a, b) {
      EarlierDateLower(a, b);
    } else if EarlierDate(b, a) {
      EarlierDateLower(b, a);
    } else {
      assert a.year == b.year && a.month == b.month && a.day == b.day;
    }
    assert 0 <= Clock(a) < 86_400_000_000_000 && 0 <= Clock(b) < 86_400_000_000_000;
    hide DayNumber, Instant, Clock;
  }
}
