/**
 * The weekly calendar: the selected week, the per-day data handed to each day's card, the
 * week summary (total target, total consumed, remaining) and the "Current" badge.
 *
 * The selected week is a JavaScript `Date`, an instant: it is modelled as a day number and a
 * time of day in milliseconds, which is what `setDate` (moving the day, keeping the clock time)
 * and the `>=`/`<=` comparisons of dates work on. The seven displayed days are `WeekDays` of
 * the selected day (Monday to Sunday).
 */
module WeeklyCalendar {
  import opened Wrappers
  import opened Dates
  import opened CalorieStore
  import opened CalorieCard

  const MsPerDay: int := 86400000

  type TimeOfDay = t: int | 0 <= t < MsPerDay

  /** A point in (local) time: a day and the milliseconds elapsed since its midnight. */
  datatype Instant = Instant(day: Day, time: TimeOfDay)

  /** Milliseconds since the epoch, the number `Date` comparisons compare. */
  function Timestamp(i: Instant): int {
    i.day * MsPerDay + i.time
  }

  /** What a day's card shows. */
  datatype DayData = DayData(date: Day, target: int, consumed: int, isFasting: bool)

  /**
   * `getDayData`: the stored record of the day, where a missing record or a zero target falls
   * back to a target of 2000, and a missing record to nothing consumed and no fast.
   */
  function GetDayData(s: seq<DailyCalories>, date: Day): (r: DayData)
    ensures r.date == date && r.target != 0
    ensures r.consumed == ConsumedOn(s, date)
    ensures !HasDaily(s, date) ==> r == DayData(date, DefaultTarget, 0, false)
    ensures HasDaily(s, date) ==> r.isFasting == GetDailyCalories(s, date).value.isFasting
    ensures HasDaily(s, date) && GetDailyCalories(s, date).value.target != 0 ==>
      r.target == GetDailyCalories(s, date).value.target
    ensures HasDaily(s, date) && GetDailyCalories(s, date).value.target == 0 ==> r.target == DefaultTarget
  {
    match GetDailyCalories(s, date)
    case None => DayData(date, DefaultTarget, 0, false)
    case Some(rec) => DayData(date, if rec.target != 0 then rec.target else DefaultTarget, rec.consumed, rec.isFasting)
  }

  function Max0(x: int): int {
    if x >= 0 then x else 0
  }

  /** "Total Target": the displayed days' targets, summed in order; a day without a record counts 2000. */
  function TotalTarget(s: seq<DailyCalories>, days: seq<Day>): (total: int)
    ensures (forall i :: 0 <= i < |days| ==> !HasDaily(s, days[i])) ==> total == DefaultTarget * |days|
  {
    if days == [] then 0
    else
      var init := days[..|days| - 1];
      assert forall i :: 0 <= i < |init| ==> init[i] == days[i];
      TotalTarget(s, init) + GetDayData(s, days[|days| - 1]).target
  }

  /** "Total Consumed": the displayed days' consumption, summed in order. */
  function TotalConsumed(s: seq<DailyCalories>, days: seq<Day>): (total: int)
    ensures (forall i :: 0 <= i < |days| ==> GetDayData(s, days[i]).consumed >= 0) ==> total >= 0
  {
    if days == [] then 0
    else
      var init := days[..|days| - 1];
      assert forall i :: 0 <= i < |init| ==> init[i] == days[i];
      TotalConsumed(s, init) + GetDayData(s, days[|days| - 1]).consumed
  }

  /** "Remaining": each day's unused target, never below zero, summed. */
  function TotalRemaining(s: seq<DailyCalories>, days: seq<Day>): (total: int)
    ensures total >= 0
  {
    if days == [] then 0
    else
      var data := GetDayData(s, days[|days| - 1]);
      TotalRemaining(s, days[..|days| - 1]) + Max0(data.target - data.consumed)
  }

  /**
   * The remaining total is never negative, and never less than total target minus total
   * consumed: a day over its target does not eat into the others' remainder.
   */
  lemma {:induction false} RemainingBounds(s: seq<DailyCalories>, days: seq<Day>)
    ensures TotalRemaining(s, days) >= 0
    ensures TotalRemaining(s, days) >= TotalTarget(s, days) - TotalConsumed(s, days)
  {
    if days != [] {
      RemainingBounds(s, days[..|days| - 1]);
    }
  }

  /** When no displayed day is over its target, the remaining total is exactly target minus consumed. */
  lemma {:induction false} RemainingExact(s: seq<DailyCalories>, days: seq<Day>)
    requires forall i :: 0 <= i < |days| ==> GetDayData(s, days[i]).consumed <= GetDayData(s, days[i]).target
    ensures TotalRemaining(s, days) == TotalTarget(s, days) - TotalConsumed(s, days)
  {
    if days != [] {
      var init := days[..|days| - 1];
      assert forall i :: 0 <= i < |init| ==> init[i] == days[i];
      RemainingExact(s, init);
    }
  }

  /** Days without a record count nothing consumed and all of their 2000 as remaining. */
  lemma {:induction false} UnrecordedDays(s: seq<DailyCalories>, days: seq<Day>)
    requires forall i :: 0 <= i < |days| ==> !HasDaily(s, days[i])
    ensures TotalConsumed(s, days) == 0
    ensures TotalRemaining(s, days) == DefaultTarget * |days|
  {
    if days != [] {
      var init := days[..|days| - 1];
      assert forall i :: 0 <= i < |init| ==> init[i] == days[i];
      UnrecordedDays(s, init);
    }
  }

  /** A week with no records at all shows 14000 target, 0 consumed and 14000 remaining. */
  lemma EmptyWeek(sel: Day)
    ensures TotalTarget([], WeekDays(sel)) == 14000
    ensures TotalConsumed([], WeekDays(sel)) == 0
    ensures TotalRemaining([], WeekDays(sel)) == 14000
  {
    UnrecordedDays([], WeekDays(sel));
  }

  /** Consumption summed over consecutive days from `lo` is the store's day-by-day window sum. */
  lemma {:induction false} TotalConsumedIsWindow(s: seq<DailyCalories>, days: seq<Day>, lo: Day)
    requires forall k :: 0 <= k < |days| ==> days[k] == lo + k
    ensures TotalConsumed(s, days) == WindowConsumed(s, lo, |days|)
  {
    if days != [] {
      var init := days[..|days| - 1];
      assert forall k :: 0 <= k < |init| ==> init[k] == days[k];
      TotalConsumedIsWindow(s, init, lo);
    }
  }

  /**
   * With at most one record per date and a nonzero TDEE, the calendar's "Total Consumed" for
   * the displayed week and the store's weekly deficit from that week's Monday add up to seven
   * days of TDEE: the two screens account for the same intake.
   */
  lemma WeekSummaryMatchesDeficit(profile: Option<UserProfile>, s: seq<DailyCalories>, sel: Day)
    requires UniqueDailyDates(s)
    requires CalculateTDEE(profile).Some? && CalculateTDEE(profile).value != 0
    ensures TotalConsumed(s, WeekDays(sel)) + GetWeeklyDeficit(profile, s, WeekStart(sel))
            == 7 * CalculateTDEE(profile).value
  {
    TotalConsumedIsWindow(s, WeekDays(sel), WeekStart(sel));
    WeeklyDeficitByDay(profile, s, WeekStart(sel));
  }

  /** Days whose data show nothing consumed contribute nothing to "Total Consumed". */
  lemma {:induction false} NothingConsumed(s: seq<DailyCalories>, days: seq<Day>)
    requires forall i :: 0 <= i < |days| ==> GetDayData(s, days[i]).consumed == 0
    ensures TotalConsumed(s, days) == 0
  {
    if days != [] {
      var init := days[..|days| - 1];
      assert forall i :: 0 <= i < |init| ==> init[i] == days[i];
      NothingConsumed(s, init);
    }
  }

  /**
   * After a pattern is applied from the Monday of the displayed week, each day's card shows the
   * pattern's target and fasting flag for its weekday with nothing consumed, and so the week's
   * "Total Consumed" is 0.
   */
  lemma PatternWeekShown(s: seq<DailyCalories>, patterns: seq<WeeklyPattern>, id: string, sel: Day)
    requires HasPattern(patterns, id)
    ensures forall d :: d in WeekDays(sel) ==>
      GetDayData(ApplyPattern(s, patterns, id, WeekStart(sel)), d)
      == DayData(d, PatternRecord(FindPattern(patterns, id).value.days, d).target, 0,
                 PatternRecord(FindPattern(patterns, id).value.days, d).isFasting)
    ensures TotalConsumed(ApplyPattern(s, patterns, id, WeekStart(sel)), WeekDays(sel)) == 0
  {
    var r := ApplyPattern(s, patterns, id, WeekStart(sel));
    ApplyPatternResult(s, patterns, id, WeekStart(sel));
    NothingConsumed(r, WeekDays(sel));
  }

  /** A day without a record is shown as a green card with 2000 remaining. */
  lemma UnrecordedDayCard(s: seq<DailyCalories>, d: Day)
    requires !HasDaily(s, d)
    ensures StatusOf(GetDayData(s, d).target, GetDayData(s, d).consumed, GetDayData(s, d).isFasting) == Remaining(2000)
    ensures ProgressColor(GetDayData(s, d).target, GetDayData(s, d).consumed, GetDayData(s, d).isFasting) == "bg-green-500"
  {
  }

  /*************************************************************************
   * The "Current" badge
   *************************************************************************/

  /**
   * `isCurrentWeek` as written: the window runs from `selectedWeek.getDate() - getDay() + 1` to
   * six days later, both at the selected instant's clock time.
   */
  function IsCurrentWeekAsWritten(sel: Instant, now: Instant): (r: bool)
    ensures r ==> WeekStart(now.day) == WeekStart(sel.day) + (if Weekday(sel.day) == 0 then 7 else 0)
  {
    var weekStart := Instant(sel.day - Weekday(sel.day) + 1, sel.time);
    var weekEnd := Instant(weekStart.day + 6, sel.time);
    var r := Timestamp(weekStart) <= Timestamp(now) <= Timestamp(weekEnd);
    assert r ==> WeekStart(now.day) == weekStart.day by {
      if r {
        assert Weekday(weekStart.day) == 1 by {
          assert weekStart.day + 4 == (sel.day + 4 - Weekday(sel.day)) + 1;
        }
        WeekStartUnique(weekStart.day, now.day);
      }
    }
    r
  }

  /**
   * For a Sunday selection the window opens on the following Monday, so no instant of the
   * displayed week (which ends on that Sunday) gets the badge, not even the selection itself.
   */
  lemma SundaySelectionNeverCurrent(sel: Instant, now: Instant)
    requires Weekday(sel.day) == 0
    requires now.day in WeekDays(sel.day)
    ensures !IsCurrentWeekAsWritten(sel, now)
  {
  }

  /**
   * Because the window ends at the selected clock time, the last displayed day after that
   * time is not current either.
   */
  lemma LateLastDayNotCurrent(sel: Instant, now: Instant)
    requires now.day == WeekStart(sel.day) + 6 && now.time > sel.time
    ensures now.day in WeekDays(sel.day)
    ensures !IsCurrentWeekAsWritten(sel, now)
  {
  }

  /** The badge as intended: today is one of the seven displayed days. */
  function IsCurrentWeek(sel: Instant, now: Instant): (r: bool)
    ensures r <==> now.day in WeekDays(sel.day)
  {
    WeekStart(sel.day) <= now.day <= WeekStart(sel.day) + 6
  }

  /** Equivalently: today's Monday-to-Sunday week is the selected one. */
  lemma IsCurrentWeekSameWeek(sel: Instant, now: Instant)
    ensures IsCurrentWeek(sel, now) <==> WeekStart(now.day) == WeekStart(sel.day)
  {
    SameWeek(now.day, sel.day);
  }

  /**
   * Except on Sundays, the code as written agrees with the intended badge up to the clock time:
   * on the Monday it needs `now` at or after the selected time, on the Sunday at or before it.
   */
  lemma AsWrittenAgreesOffSunday(sel: Instant, now: Instant)
    requires Weekday(sel.day) != 0
    ensures IsCurrentWeekAsWritten(sel, now) <==>
      && IsCurrentWeek(sel, now)
      && (now.day == WeekStart(sel.day) ==> now.time >= sel.time)
      && (now.day == WeekStart(sel.day) + 6 ==> now.time <= sel.time)
  {
    assert sel.day - Weekday(sel.day) + 1 == WeekStart(sel.day);
  }

  /*************************************************************************
   * Week navigation
   *************************************************************************/

  /** The calendar's `selectedWeek` state and the buttons that move it. */
  class WeekNavigator {
    var selectedWeek: Instant

    /** The calendar opens on the current instant. */
    constructor (now: Instant)
      ensures selectedWeek == now
      ensures IsCurrentWeek(selectedWeek, now)
    {
      selectedWeek := now;
    }

    /** The seven days on screen. */
    function DisplayedDays(): (days: seq<Day>)
      reads this
      ensures |days| == 7 && selectedWeek.day in days
    {
      WeekDays(selectedWeek.day)
    }

    /** Seven days back, same clock time: the previous Monday-to-Sunday week is shown. */
    method HandlePreviousWeek()
      modifies this
      ensures selectedWeek == Instant(old(selectedWeek.day) - 7, old(selectedWeek.time))
      ensures WeekStart(selectedWeek.day) == WeekStart(old(selectedWeek.day)) - 7
    {
      WeekStartShift(selectedWeek.day);
      selectedWeek := Instant(selectedWeek.day - 7, selectedWeek.time);
    }

    /** Seven days forward, same clock time: the next Monday-to-Sunday week is shown. */
    method HandleNextWeek()
      modifies this
      ensures selectedWeek == Instant(old(selectedWeek.day) + 7, old(selectedWeek.time))
      ensures WeekStart(selectedWeek.day) == WeekStart(old(selectedWeek.day)) + 7
    {
      WeekStartShift(selectedWeek.day);
      selectedWeek := Instant(selectedWeek.day + 7, selectedWeek.time);
    }
  }

  /** Going back a week and forward again returns to the same selected instant. */
  method PreviousThenNext(nav: WeekNavigator)
    modifies nav
    ensures nav.selectedWeek == old(nav.selectedWeek)
  {
    nav.HandlePreviousWeek();
    nav.HandleNextWeek();
  }
}
