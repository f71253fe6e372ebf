/**
 * Calendar days as abstract day numbers.
 *
 * A `Day` counts days since 1970-01-01, which was a Thursday. Weekdays follow the
 * JavaScript `Date.getDay` convention (Sunday = 0 ... Saturday = 6), and weeks shown
 * in the calendar start on Monday, as `getWeekDays` asks `startOfWeek` for.
 */
module Dates {
  type Day = int

  /** Weekday of a day, Sunday = 0. */
  function Weekday(d: Day): (w: nat)
    ensures w < 7
  {
    (d + 4) % 7
  }

  /** Lower-case English weekday names, indexed by `Weekday`. */
  const DayNames: seq<string> :=
    ["sunday", "monday", "tuesday", "wednesday", "thursday", "friday", "saturday"]

  /** The key under which a weekly pattern stores the target for day `d`. */
  function DayName(d: Day): (name: string)
    ensures name in DayNames
    ensures name == "sunday" <==> Weekday(d) == 0
  {
    DayNames[Weekday(d)]
  }

  /** Two days get the same name exactly when they fall on the same weekday. */
  lemma DayNameSameWeekday(d: Day, e: Day)
    ensures DayName(d) == DayName(e) <==> Weekday(d) == Weekday(e)
  {
    forall i, j | 0 <= i < 7 && 0 <= j < 7 && i != j
      ensures DayNames[i] != DayNames[j]
    {
      assert DayNames[i][0] != DayNames[j][0] || DayNames[i][1] != DayNames[j][1];
    }
  }

  /** Monday of the Monday-to-Sunday week that contains `d`. */
  function WeekStart(d: Day): (m: Day)
    ensures Weekday(m) == 1
    ensures m <= d < m + 7
  {
    d - (Weekday(d) + 6) % 7
  }

  /** The seven days of the Monday-to-Sunday week containing `d`, in order. */
  function WeekDays(d: Day): (days: seq<Day>)
    ensures |days| == 7
    ensures forall k :: 0 <= k < 7 ==> days[k] == WeekStart(d) + k
    ensures d in days
  {
    var m := WeekStart(d);
    [m, m + 1, m + 2, m + 3, m + 4, m + 5, m + 6]
  }

  /** A Monday `m` with `d` among the seven days from it is the start of `d`'s week. */
  lemma WeekStartUnique(m: Day, d: Day)
    requires Weekday(m) == 1 && m <= d < m + 7
    ensures WeekStart(d) == m
  {
    var k := d - m;
    assert (m + 4) % 7 == 1;
    assert (d + 4) % 7 == (1 + k) % 7 by {
      assert d + 4 == (m + 4) + k;
    }
  }

  /** Two days share a calendar week exactly when one is among the displayed days of the other. */
  lemma SameWeek(a: Day, b: Day)
    ensures WeekStart(a) == WeekStart(b) <==> a in WeekDays(b)
  {
    if a in WeekDays(b) {
      WeekStartUnique(WeekStart(b), a);
    }
  }

  /** Moving seven days moves the displayed week by exactly one week. */
  lemma WeekStartShift(d: Day)
    ensures WeekStart(d + 7) == WeekStart(d) + 7
    ensures WeekStart(d - 7) == WeekStart(d) - 7
  {
    assert Weekday(d + 7) == Weekday(d) && Weekday(d - 7) == Weekday(d) by {
      assert d + 7 + 4 == (d + 4) + 7;
      assert d - 7 + 4 == (d + 4) - 7;
    }
  }
}
