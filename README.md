# Calorie tracker core, modelled in Dafny

This project models the domain core of a calorie-tracking app (a React Native app with a
zustand store). It covers three files.

- **The domain store** (`store/calorieStore.ts`) holds four things: an optional user profile,
  per-day calorie records, weight entries and weekly target patterns. Its mutators add and
  replace records by date, add, merge and delete patterns by id, and apply a pattern to seven
  consecutive days. Its calculators derive the TDEE (Mifflin-St Jeor BMR times an activity
  multiplier, rounded), the weekly deficit and the estimated fat loss.
- **The day card** (`components/ui/CalorieCard.tsx`) turns a day's target, consumption and
  fasting flag into a progress-bar fill, a bar colour, a status line and a status colour.
- **The weekly calendar** (`components/ui/WeeklyCalendar.tsx`) fills in defaults for days
  without a record and sums the displayed week. It moves the selected week back and forth,
  and decides whether to show the "Current" badge.

Layout:

- `wrappers.dfy` (`Wrappers`): `Option`, for JavaScript's `null`/`undefined` results.
- `dates.dfy` (`Dates`): days are integers counting days since 1970-01-01. Weekdays follow
  `Date.getDay` (Sunday = 0). The Monday-to-Sunday week of a day is what `getWeekDays`
  displays.
- `calorie_store.dfy` (`CalorieStore`): record datatypes and pure functions for every store
  operation. The class `Store` has one sequence field per collection. Each mutator replaces
  its field with that function of the old value and keeps dates unique (`Valid`).
  `ApplyWeeklyPattern` keeps the source's seven-step loop, which calls `AddDailyCalories`.
- `calorie_card.dfy` (`CalorieCard`): the card's derivations. Division by a zero target is
  spelled out as JavaScript evaluates it: `Infinity`, `-Infinity` or `NaN`.
- `weekly_calendar.dfy` (`WeeklyCalendar`): `getDayData`, the three summary sums, the
  "Current" badge, and the class `WeekNavigator` holding `selectedWeek`. The selected week
  is an instant: a day and a time of day.

Profile values, activity multipliers and the fat-loss quotient are exact `real`s.
`Math.round` is `floor(x + 0.5)`. Calorie targets and consumption are integers.

Two consequences of the code are worth stating outright:
- `getWeeklyDeficit` tests `!tdee`, so it returns 0 when the TDEE is 0 as well as when it
  is absent.
- A 30-year-old man, 170 cm, 70 kg, moderately active, has a BMR of 1617.5 and a TDEE of
  2507.

## Model

| member | source | states |
|---|---|---|
| CalorieStore.GetDailyCalories | store/calorieStore.ts:107-109 | absent exactly when no record has the date; otherwise a record of the list with that date |
| CalorieStore.GetDailyCaloriesFirst | store/calorieStore.ts:107-109 | the lookup returns the earliest record with the date in insertion order |
| CalorieStore.MergeDaily | store/calorieStore.ts:103 | a partial update never changes the record's date |
| CalorieStore.UpdateDaily | store/calorieStore.ts:100-106 | same length; records with the date get the present fields merged in, every other record is unchanged; a no-op when the date is absent |
| CalorieStore.UpdateDailyKeepsUnique | store/calorieStore.ts:100-106 | updating keeps calorie-record dates unique |
| CalorieStore.AddDaily | store/calorieStore.ts:90-99 | an existing date is overwritten in place with the three given fields, same length, others unchanged; a new date is appended as one record at the end |
| CalorieStore.AddDailyStores | store/calorieStore.ts:90-99 | afterwards a record with the date exists and every record with that date holds exactly the given fields; the lookup returns it; earlier records keep index and date, records with other dates are unchanged |
| CalorieStore.AddDailyKeepsUnique | store/calorieStore.ts:90-99 | on unique dates, adding keeps dates unique, so exactly one record carries the date |
| CalorieStore.AddDailyIdempotent | store/calorieStore.ts:90-99 | repeating the call with the same arguments leaves the list unchanged, creating no duplicate |
| CalorieStore.ReplaceWeight | store/calorieStore.ts:116-120 | same length; entries with the date become `{date, weight}`, the rest are unchanged |
| CalorieStore.AddWeight | store/calorieStore.ts:113-126 | an existing date is replaced in place at the same index and length; otherwise `{date, weight}` is appended |
| CalorieStore.AddWeightExactlyOne | store/calorieStore.ts:113-126 | weight dates stay unique; afterwards the date is present and every entry with it holds the new weight |
| CalorieStore.GetLatestWeight | store/calorieStore.ts:127-131 | absent exactly on an empty list |
| CalorieStore.LatestWeightAfterAdd | store/calorieStore.ts:113-131 | after adding, the latest weight is the new one if the date was new or was the last entry's, otherwise it is unchanged |
| CalorieStore.LatestWeightIsInsertionOrder | store/calorieStore.ts:127-131 | the latest weight follows insertion order, not calendar order: back-filling an earlier day makes its weight the latest |
| CalorieStore.FindPattern | store/calorieStore.ts:153 | absent exactly when no pattern has the id; otherwise a pattern of the list with that id |
| CalorieStore.FindPatternFirst | store/calorieStore.ts:153 | the lookup returns the earliest pattern with the id |
| CalorieStore.MergePattern | store/calorieStore.ts:143 | the id is kept unless the update carries one; each field is the update's when present, otherwise the pattern's; an empty update changes nothing |
| CalorieStore.UpdatePatterns | store/calorieStore.ts:140-146 | same length; patterns with the id get the present fields merged in, the others are unchanged; a no-op when the id is absent |
| CalorieStore.DeletePattern | store/calorieStore.ts:147-151 | a pattern is kept exactly when it was present and its id differs; a no-op when the id is absent, strictly shorter otherwise |
| CalorieStore.DeletePatternKeepsOrder | store/calorieStore.ts:147-151 | deletion distributes over concatenation, so the kept patterns stay in their original order |
| CalorieStore.PatternTarget | store/calorieStore.ts:164 | the weekday's entry when present and nonzero, otherwise 2000; never 0 |
| CalorieStore.PatternRecord | store/calorieStore.ts:161-167 | the record written for a day has that date, consumed 0, a nonzero target, and is fasting exactly when the target is at most 1000 |
| CalorieStore.ApplyDays | store/calorieStore.ts:160-168 | each loop step adds at most one record, so after n steps the list has grown by at most n; zero steps leave it unchanged |
| CalorieStore.ApplyPattern | store/calorieStore.ts:152-154 | a missing pattern id leaves the records unchanged |
| CalorieStore.ApplyDaysShape | store/calorieStore.ts:160-168 | records present before keep index and date, those dated outside the window keep their value, and new records are appended and dated inside the window |
| CalorieStore.ApplyDaysWindow | store/calorieStore.ts:160-168 | every day of the window has a record, and every record dated there is the one seeded from that day's target, with consumed reset to 0 |
| CalorieStore.ApplyDaysUnique | store/calorieStore.ts:160-168 | applying a pattern keeps calorie-record dates unique |
| CalorieStore.ApplyPatternResult | store/calorieStore.ts:152-169 | for a present pattern, the lookup of each of the seven days returns the pattern's record for its weekday |
| CalorieStore.ActivityMultiplier | store/calorieStore.ts:69-75 | multipliers lie between 1.2 and 1.9 |
| CalorieStore.Bmr | store/calorieStore.ts:176-182 | the Mifflin-St Jeor equation: 10·weight + 6.25·height − 5·age, plus 5 for a man, minus 161 otherwise |
| CalorieStore.BmrGenderGap | store/calorieStore.ts:176-182 | for the same weight, height and age, a man's BMR is 166 above a woman's |
| CalorieStore.Round | store/calorieStore.ts:184 | the result is within half a unit of the argument, halves rounding up |
| CalorieStore.CalculateTDEE | store/calorieStore.ts:172-185 | absent exactly without a profile; otherwise the nearest integer to BMR times the activity multiplier |
| CalorieStore.TdeeExample | store/calorieStore.ts:176-184 | 30 years, 170 cm, 70 kg, male, moderate gives 2507 |
| CalorieStore.GetWeeklyDeficit | store/calorieStore.ts:188-205 | 0 when the TDEE is absent or 0; otherwise deficit plus consumption dated in the seven days from start is 7 times the TDEE |
| CalorieStore.SumConsumed | store/calorieStore.ts:196-201 | an empty date range sums to 0; with non-negative consumption the sum is non-negative |
| CalorieStore.SumConsumedByDay | store/calorieStore.ts:196-201 | with unique dates, the record-filtering sum equals the day-by-day sum of each day's consumption |
| CalorieStore.WeeklyDeficitByDay | store/calorieStore.ts:188-205 | with unique dates and a nonzero TDEE, the deficit is 7 times the TDEE minus each day's consumption |
| CalorieStore.DeficitAfterApply | store/calorieStore.ts:188-205 | right after a pattern is applied from start, that week's deficit is the full 7 times the TDEE |
| CalorieStore.GetEstimatedFatLoss | store/calorieStore.ts:207-211 | the estimate times 7700 is the deficit; it is positive exactly when the deficit is |
| CalorieStore.Store.constructor | store/calorieStore.ts:85-134 | the store starts with no profile and empty collections, with unique dates |
| CalorieStore.Store.SetUserProfile | store/calorieStore.ts:86 | the profile is replaced wholesale |
| CalorieStore.Store.AddDailyCalories | store/calorieStore.ts:90-99 | the records become `AddDaily` of the old ones; unique dates are preserved |
| CalorieStore.Store.UpdateDailyCalories | store/calorieStore.ts:100-106 | the records become `UpdateDaily` of the old ones; unique dates are preserved |
| CalorieStore.Store.AddWeightEntry | store/calorieStore.ts:113-126 | the entries become `AddWeight` of the old ones; unique dates are preserved |
| CalorieStore.Store.AddWeeklyPattern | store/calorieStore.ts:135-139 | the pattern is appended at the end |
| CalorieStore.Store.UpdateWeeklyPattern | store/calorieStore.ts:140-146 | the patterns become `UpdatePatterns` of the old ones |
| CalorieStore.Store.DeleteWeeklyPattern | store/calorieStore.ts:147-151 | the patterns become `DeletePattern` of the old ones |
| CalorieStore.Store.ApplyWeeklyPattern | store/calorieStore.ts:152-169 | the seven-step loop leaves the records equal to `ApplyPattern` of the old ones; unique dates are preserved |
| CalorieCard.ProgressOf | components/ui/CalorieCard.tsx:23 | the fill never exceeds 1; for a positive target and non-negative consumption it lies in [0, 1] and is 1 exactly when the target is reached; it is at least 0.8 exactly when 5·consumed ≥ 4·target; a zero target gives NaN, -Infinity or 1 by the sign of consumption |
| CalorieCard.StatusOf | components/ui/CalorieCard.tsx:22-38 | fasting whenever the flag is set; otherwise over target exactly when consumed > target, target reached exactly when they are equal, else the positive remainder target − consumed |
| CalorieCard.DecimalString | components/ui/CalorieCard.tsx:37 | a non-empty string of decimal digits with no leading zero |
| CalorieCard.DecimalRoundTrip | components/ui/CalorieCard.tsx:37 | reading the rendered number back gives the number |
| CalorieCard.StatusText | components/ui/CalorieCard.tsx:33-38 | a positive remainder is rendered as decimal digits followed by " remaining", and the digits read back as the remainder |
| CalorieCard.StatusTextInjective | components/ui/CalorieCard.tsx:33-38 | different statuses render as different texts |
| CalorieCard.ProgressBlueAndGreen | components/ui/CalorieCard.tsx:26-31 | the bar is blue exactly on fast days, and green exactly when not fasting, not over target and the fill is not at least 0.8 |
| CalorieCard.ProgressColor | components/ui/CalorieCard.tsx:26-31 | one of the four bar classes |
| CalorieCard.StatusColor | components/ui/CalorieCard.tsx:40-45 | one of the four text classes |
| CalorieCard.StatusColorMatchesText | components/ui/CalorieCard.tsx:33-45 | the status colour is a function of the status: blue fasting, red over, green reached, grey otherwise |
| CalorieCard.ProgressRedIffOver | components/ui/CalorieCard.tsx:24-35 | the bar is red exactly when the status is "Over Target" |
| CalorieCard.ProgressYellowIffNearTarget | components/ui/CalorieCard.tsx:23-31 | with a positive target and no fast, the bar is yellow exactly when 80% ≤ consumed ≤ target |
| CalorieCard.ZeroTargetCard | components/ui/CalorieCard.tsx:22-45 | a zero target with nothing consumed gives a NaN fill, a green bar and "Target Reached" |
| Dates.Weekday | store/calorieStore.ts:163 | a weekday index in 0..6, as `getDay` returns |
| Dates.DayName | store/calorieStore.ts:157-163 | one of the seven lower-case names, "sunday" exactly on Sundays |
| Dates.DayNameSameWeekday | store/calorieStore.ts:157-163 | two days get the same pattern key exactly when they fall on the same weekday |
| Dates.WeekStart | utils/dateUtils.ts:18-22 | a Monday, at most six days before the day |
| Dates.WeekDays | utils/dateUtils.ts:18-22 | seven consecutive days from that Monday, containing the day |
| Dates.WeekStartUnique | utils/dateUtils.ts:18-22 | the Monday of a day's week is the only Monday within six days before it |
| Dates.SameWeek | utils/dateUtils.ts:18-22 | two days share a week start exactly when one is displayed in the other's week |
| Dates.WeekStartShift | utils/dateUtils.ts:18-22 | moving seven days moves the week start by seven days |
| WeeklyCalendar.GetDayData | components/ui/WeeklyCalendar.tsx:19-28 | a missing record gives target 2000, consumed 0, no fast; a stored target of 0 shows as 2000; consumed is the stored value or 0 |
| WeeklyCalendar.TotalTarget | components/ui/WeeklyCalendar.tsx:112 | with no day recorded, "Total Target" is 2000 per displayed day |
| WeeklyCalendar.TotalConsumed | components/ui/WeeklyCalendar.tsx:118 | "Total Consumed" is non-negative when every displayed day's consumption is |
| WeeklyCalendar.TotalRemaining | components/ui/WeeklyCalendar.tsx:124-127 | "Remaining" is never negative |
| WeeklyCalendar.RemainingBounds | components/ui/WeeklyCalendar.tsx:124-127 | "Remaining" is never negative and never below total target minus total consumed |
| WeeklyCalendar.RemainingExact | components/ui/WeeklyCalendar.tsx:112-127 | when no day is over its target, "Remaining" is exactly total target minus total consumed |
| WeeklyCalendar.UnrecordedDays | components/ui/WeeklyCalendar.tsx:118-127 | days without records count 0 consumed and 2000 each towards "Remaining" |
| WeeklyCalendar.EmptyWeek | components/ui/WeeklyCalendar.tsx:112-127 | a week without records shows 14000 / 0 / 14000 |
| WeeklyCalendar.TotalConsumedIsWindow | components/ui/WeeklyCalendar.tsx:118 | "Total Consumed" over consecutive days is the day-by-day sum of each day's consumption |
| WeeklyCalendar.WeekSummaryMatchesDeficit | components/ui/WeeklyCalendar.tsx:118 | with unique dates, "Total Consumed" of the displayed week plus the store's deficit from its Monday is 7 times the TDEE |
| WeeklyCalendar.NothingConsumed | components/ui/WeeklyCalendar.tsx:118 | days showing nothing consumed add nothing to "Total Consumed" |
| WeeklyCalendar.PatternWeekShown | components/ui/WeeklyCalendar.tsx:19-28 | after a pattern is applied from the displayed Monday, each card shows the pattern's target and fast flag with nothing consumed, and the week's consumption is 0 |
| WeeklyCalendar.UnrecordedDayCard | components/ui/WeeklyCalendar.tsx:19-28 | a day without a record shows a green card with 2000 remaining |
| WeeklyCalendar.IsCurrentWeekAsWritten | components/ui/WeeklyCalendar.tsx:42-50 | as written, the badge shows only when today's week starts on the selected week's Monday, or one week later for a Sunday selection |
| WeeklyCalendar.SundaySelectionNeverCurrent | components/ui/WeeklyCalendar.tsx:42-50 | as written, for a Sunday selection no instant of the displayed week gets the badge |
| WeeklyCalendar.LateLastDayNotCurrent | components/ui/WeeklyCalendar.tsx:42-50 | as written, the last displayed day after the selected clock time gets no badge |
| WeeklyCalendar.IsCurrentWeek | components/ui/WeeklyCalendar.tsx:42-50 | the badge shows exactly when today is one of the seven displayed days |
| WeeklyCalendar.IsCurrentWeekSameWeek | components/ui/WeeklyCalendar.tsx:42-50 | equivalently, today's Monday-to-Sunday week is the selected one |
| WeeklyCalendar.AsWrittenAgreesOffSunday | components/ui/WeeklyCalendar.tsx:42-50 | off Sundays the code as written agrees with the intended badge, except for the clock-time cut at both ends of the window |
| WeeklyCalendar.WeekNavigator.constructor | components/ui/WeeklyCalendar.tsx:14 | the calendar opens on the current instant, whose week is current |
| WeeklyCalendar.WeekNavigator.DisplayedDays | components/ui/WeeklyCalendar.tsx:17 | seven days, including the selected one |
| WeeklyCalendar.WeekNavigator.HandlePreviousWeek | components/ui/WeeklyCalendar.tsx:30-34 | the selection moves back exactly seven days at the same clock time, and the displayed week moves back one week |
| WeeklyCalendar.WeekNavigator.HandleNextWeek | components/ui/WeeklyCalendar.tsx:36-40 | the selection moves forward exactly seven days at the same clock time, and the displayed week moves forward one week |
| WeeklyCalendar.PreviousThenNext | components/ui/WeeklyCalendar.tsx:30-40 | going back and then forward restores the selected instant |

## Findings

| source | as written | input that shows it | evidently intended | confidence | as-written member | corrected member |
|---|---|---|---|---|---|---|
| components/ui/WeeklyCalendar.tsx:45 | the badge window starts at `sel - getDay(sel) + 1`, which is the following Monday when the selection is a Sunday | any Sunday selection, e.g. the calendar opened on a Sunday: its own instant is outside the window, so the current week never shows "Current" | the window is the displayed Monday-to-Sunday week, the Monday being six days earlier for a Sunday | high, not executed | WeeklyCalendar.SundaySelectionNeverCurrent | WeeklyCalendar.IsCurrentWeek |
| components/ui/WeeklyCalendar.tsx:44-49 | the window ends on Sunday at the selected instant's clock time, not at the end of that day | selection Monday 09:00, today the following Sunday 10:00: the day is displayed, but the badge is off | the window covers whole days | medium, not executed | WeeklyCalendar.LateLastDayNotCurrent | WeeklyCalendar.IsCurrentWeek |

The navigator and the rest of the model use the corrected `IsCurrentWeek`.
`IsCurrentWeekAsWritten` keeps the code's computation for comparison.

## Left out

- Persistence (the zustand `persist` middleware and AsyncStorage serialisation) is left out. It is foreign I/O.
- The colour-scheme setting (`colorScheme`/`setColorScheme`) is left out. It is a styling value with no logic.
- Date strings and JavaScript `Date` are replaced by day numbers. The model leaves out `YYYY-MM-DD` parsing, `formatDate`, `toISOString` and the UTC-versus-local-time mismatch in `applyWeeklyPattern` and `getWeeklyDeficit`. The model assumes one time zone with no daylight-saving shift, so a day's number and its weekday always agree.
- CalorieStore.ApplyPattern: each of the seven dates is `start + i` and its weekday is `Weekday(start + i)`. A time-zone shift of the stored date key is not modelled.
- Numbers are exact integers and reals, not IEEE doubles. This leaves out rounding error in BMR times multiplier and in the fat-loss quotient, and profiles holding `NaN`.
- CalorieStore.Store.AddDailyCalories: the optional `isFasting` argument, which defaults to `false`, is a required parameter. Callers pass `false` for the default.
- The store's read operations (`getDailyCalories`, `getLatestWeight`, `calculateTDEE`, `getWeeklyDeficit`, `getEstimatedFatLoss`) are module functions of the field values, not members of `Store`.
- CalorieCard.StatusText renders integers only, as decimal digits. JavaScript's exponent notation for numbers of 10^21 and above is not modelled.
- Rendering is left out: layout, Tailwind classes other than the colours, `toLocaleString`/`toLocaleDateString`, the "Today" marker, press handlers and the progress-bar width string.
- The `today` of `isCurrentWeek` is taken as a parameter rather than read from the clock.
- Weight-change statistics, logging streaks and trend classification are not modelled. No part of the modelled code implements them.
- CalorieStore.LatestWeightIsInsertionOrder: the weight-log and progress screens (app/(tabs)/weight-log.tsx:24, app/(tabs)/progress.tsx:27) call `.sort` on the store's `weightEntries` array, which sorts it in place. The model's fields are value sequences, so no caller can reorder them. In the app, the "insertion order" that `getLatestWeight` reads is whatever order a screen last sorted the array into.
- The pie chart, HealthKit service, numeric keyboard, theme constants and the screens are not part of this model.
