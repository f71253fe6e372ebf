/**
 * The domain store of the calorie tracker: an optional user profile, per-day calorie
 * records, weight entries and weekly target patterns, with the mutators that keep those
 * collections consistent and the calculators (TDEE, weekly deficit, estimated fat loss)
 * that read them.
 *
 * The collections are kept as sequences in insertion order. Every operation on them is
 * first defined as a function on values (`AddDaily`, `UpdateDaily`, `AddWeight`, ...);
 * the mutating methods of `Store` replace a field by that function of its old value,
 * as the store's `set((state) => ...)` calls do. The read operations (`GetDailyCalories`,
 * `GetLatestWeight`, `CalculateTDEE`, `GetWeeklyDeficit`, `GetEstimatedFatLoss`) are
 * functions of the fields they read.
 */
module CalorieStore {
  import opened Wrappers
  import opened Dates

  datatype ActivityLevel = Sedentary | Light | Moderate | Active | VeryActive
  datatype Gender = Male | Female

  /** Age in years, height in centimetres, weight in kilograms. The store itself checks no range. */
  datatype UserProfile = UserProfile(age: real, height: real, weight: real,
                                     activityLevel: ActivityLevel, gender: Gender)

  datatype DailyCalories = DailyCalories(date: Day, target: int, consumed: int, isFasting: bool)

  datatype WeightEntry = WeightEntry(date: Day, weight: real)

  /** `days` maps lower-case weekday names ("monday", ...) to calorie targets. */
  datatype WeeklyPattern = WeeklyPattern(id: string, name: string, days: map<string, int>)

  /** The fields present in a partial update of a daily record (the date cannot be updated). */
  datatype DailyUpdate = DailyUpdate(target: Option<int>, consumed: Option<int>, isFasting: Option<bool>)

  /** The fields present in a partial update of a weekly pattern, the id included. */
  datatype PatternUpdate = PatternUpdate(id: Option<string>, name: Option<string>,
                                         days: Option<map<string, int>>)

  /** Target used when a pattern has no (or a zero) entry for a weekday. */
  const DefaultTarget: int := 2000
  /** A record written by a pattern is a fasting day when its target is at most this. */
  const FastingThreshold: int := 1000
  /** Kilocalories per kilogram of body fat. */
  const KcalPerKgFat: int := 7700

  /*************************************************************************
   * Daily calorie records
   *************************************************************************/

  ghost predicate UniqueDailyDates(s: seq<DailyCalories>) {
    forall i, j :: 0 <= i < j < |s| ==> s[i].date != s[j].date
  }

  predicate HasDaily(s: seq<DailyCalories>, date: Day) {
    exists i :: 0 <= i < |s| && s[i].date == date
  }

  /** Every record of `s` dated `date` is `rec`. */
  ghost predicate AllDatedAre(s: seq<DailyCalories>, date: Day, rec: DailyCalories) {
    forall i :: 0 <= i < |s| && s[i].date == date ==> s[i] == rec
  }

  /** `dailyCalories.find(d => d.date === date)`. */
  function GetDailyCalories(s: seq<DailyCalories>, date: Day): (r: Option<DailyCalories>)
    ensures r.None? <==> !HasDaily(s, date)
    ensures r.Some? ==> r.value.date == date && r.value in s
  {
    if s == [] then None
    else if s[0].date == date then Some(s[0])
    else
      var r := GetDailyCalories(s[1..], date);
      assert forall i :: 1 <= i < |s| ==> s[i] == s[1..][i - 1];
      r
  }

  /** The lookup finds the earliest record with the date, in insertion order. */
  lemma {:induction false} GetDailyCaloriesFirst(s: seq<DailyCalories>, date: Day, i: nat)
    requires i < |s| && s[i].date == date
    requires forall j :: 0 <= j < i ==> s[j].date != date
    ensures GetDailyCalories(s, date) == Some(s[i])
  {
    if i > 0 {
      GetDailyCaloriesFirst(s[1..], date, i - 1);
    }
  }

  /** `{ ...d, ...updates }`: the fields present in `u` overwrite those of `d`. */
  function MergeDaily(d: DailyCalories, u: DailyUpdate): (r: DailyCalories)
    ensures r.date == d.date
  {
    DailyCalories(d.date,
                  if u.target.Some? then u.target.value else d.target,
                  if u.consumed.Some? then u.consumed.value else d.consumed,
                  if u.isFasting.Some? then u.isFasting.value else d.isFasting)
  }

  /** `updateDailyCalories`: merges `u` into every record dated `date`, leaving the others alone. */
  function UpdateDaily(s: seq<DailyCalories>, date: Day, u: DailyUpdate): (r: seq<DailyCalories>)
    ensures |r| == |s|
    ensures forall i {:trigger r[i]} :: 0 <= i < |s| ==>
      r[i] == if s[i].date == date then MergeDaily(s[i], u) else s[i]
    ensures !HasDaily(s, date) ==> r == s
  {
    if s == [] then []
    else
      var rest := UpdateDaily(s[1..], date, u);
      assert forall i :: 1 <= i < |s| ==> s[i] == s[1..][i - 1];
      [if s[0].date == date then MergeDaily(s[0], u) else s[0]] + rest
  }

  /** Updating never rewrites a date, so unique dates stay unique. */
  lemma UpdateDailyKeepsUnique(s: seq<DailyCalories>, date: Day, u: DailyUpdate)
    requires UniqueDailyDates(s)
    ensures UniqueDailyDates(UpdateDaily(s, date, u))
  {
    var r := UpdateDaily(s, date, u);
    assert forall i :: 0 <= i < |r| ==> r[i].date == s[i].date;
  }

  /**
   * `addDailyCalories`: an existing record for `date` has all three fields overwritten in
   * place; otherwise a new record is appended at the end.
   */
  function AddDaily(s: seq<DailyCalories>, date: Day, target: int, consumed: int, isFasting: bool)
    : (r: seq<DailyCalories>)
    ensures HasDaily(s, date) ==>
      |r| == |s| &&
      forall i {:trigger r[i]} :: 0 <= i < |s| ==>
        r[i] == if s[i].date == date then DailyCalories(date, target, consumed, isFasting) else s[i]
    ensures !HasDaily(s, date) ==> r == s + [DailyCalories(date, target, consumed, isFasting)]
  {
    if GetDailyCalories(s, date).Some? then
      UpdateDaily(s, date, DailyUpdate(Some(target), Some(consumed), Some(isFasting)))
    else
      s + [DailyCalories(date, target, consumed, isFasting)]
  }

  /** `r` is `prev` with `rec` written for its date: replaced in place where present, else appended. */
  ghost predicate Upserted(prev: seq<DailyCalories>, r: seq<DailyCalories>, rec: DailyCalories) {
    && |prev| <= |r| <= |prev| + 1
    && (forall j :: 0 <= j < |prev| ==> r[j].date == prev[j].date)
    && (forall j :: 0 <= j < |prev| && prev[j].date != rec.date ==> r[j] == prev[j])
    && (forall j :: |prev| <= j < |r| ==> r[j] == rec)
    && AllDatedAre(r, rec.date, rec)
    && HasDaily(r, rec.date)
  }

  /**
   * After `AddDaily` the list holds a record for `date`, every record with that date holds the
   * given fields, and the lookup returns exactly that record; nothing else moves or changes.
   */
  lemma AddDailyStores(s: seq<DailyCalories>, date: Day, target: int, consumed: int, isFasting: bool)
    ensures Upserted(s, AddDaily(s, date, target, consumed, isFasting), DailyCalories(date, target, consumed, isFasting))
    ensures GetDailyCalories(AddDaily(s, date, target, consumed, isFasting), date)
            == Some(DailyCalories(date, target, consumed, isFasting))
  {
    var rec := DailyCalories(date, target, consumed, isFasting);
    var r := AddDaily(s, date, target, consumed, isFasting);
    if HasDaily(s, date) {
      var k :| 0 <= k < |s| && s[k].date == date;
      assert r[k].date == date;
    } else {
      assert r[|s|].date == date;
      assert forall j :: 0 <= j < |s| ==> r[j] == s[j];
    }
    var found := GetDailyCalories(r, date);
    var j :| 0 <= j < |r| && r[j] == found.value;
  }

  /** On records with unique dates, `AddDaily` keeps them unique: exactly one record then carries `date`. */
  lemma AddDailyKeepsUnique(s: seq<DailyCalories>, date: Day, target: int, consumed: int, isFasting: bool)
    requires UniqueDailyDates(s)
    ensures UniqueDailyDates(AddDaily(s, date, target, consumed, isFasting))
  {
    var r := AddDaily(s, date, target, consumed, isFasting);
    if !HasDaily(s, date) {
      assert forall j :: 0 <= j < |s| ==> r[j] == s[j] && s[j].date != date;
    }
  }

  /** Repeating `addDailyCalories` with the same arguments changes nothing: no duplicate appears. */
  lemma AddDailyIdempotent(s: seq<DailyCalories>, date: Day, target: int, consumed: int, isFasting: bool)
    ensures AddDaily(AddDaily(s, date, target, consumed, isFasting), date, target, consumed, isFasting)
            == AddDaily(s, date, target, consumed, isFasting)
  {
    var r := AddDaily(s, date, target, consumed, isFasting);
    AddDailyStores(s, date, target, consumed, isFasting);
    var r2 := AddDaily(r, date, target, consumed, isFasting);
    assert |r2| == |r|;
    assert forall i :: 0 <= i < |r| ==> r2[i] == r[i];
  }

  /*************************************************************************
   * Weight entries
   *************************************************************************/

  ghost predicate UniqueWeightDates(s: seq<WeightEntry>) {
    forall i, j :: 0 <= i < j < |s| ==> s[i].date != s[j].date
  }

  predicate HasWeight(s: seq<WeightEntry>, date: Day) {
    exists i :: 0 <= i < |s| && s[i].date == date
  }

  /** `weightEntries.map(w => w.date === date ? { date, weight } : w)`. */
  function ReplaceWeight(s: seq<WeightEntry>, date: Day, weight: real): (r: seq<WeightEntry>)
    ensures |r| == |s|
    ensures forall i {:trigger r[i]} :: 0 <= i < |s| ==>
      r[i] == if s[i].date == date then WeightEntry(date, weight) else s[i]
  {
    if s == [] then []
    else
      var rest := ReplaceWeight(s[1..], date, weight);
      assert forall i :: 1 <= i < |s| ==> s[i] == s[1..][i - 1];
      [if s[0].date == date then WeightEntry(date, weight) else s[0]] + rest
  }

  /** `addWeightEntry`: replace the entry for `date` in place, or append a new one. */
  function AddWeight(s: seq<WeightEntry>, date: Day, weight: real): (r: seq<WeightEntry>)
    ensures HasWeight(s, date) ==>
      |r| == |s| &&
      forall i {:trigger r[i]} :: 0 <= i < |s| ==>
        r[i] == if s[i].date == date then WeightEntry(date, weight) else s[i]
    ensures !HasWeight(s, date) ==> r == s + [WeightEntry(date, weight)]
  {
    if HasWeight(s, date) then ReplaceWeight(s, date, weight) else s + [WeightEntry(date, weight)]
  }

  /** Every entry of `s` dated `date` weighs `weight`. */
  ghost predicate AllWeighedAt(s: seq<WeightEntry>, date: Day, weight: real) {
    forall i :: 0 <= i < |s| && s[i].date == date ==> s[i].weight == weight
  }

  /** Either way, dates stay unique and exactly one entry holds `date`, with the new weight. */
  lemma AddWeightExactlyOne(s: seq<WeightEntry>, date: Day, weight: real)
    requires UniqueWeightDates(s)
    ensures UniqueWeightDates(AddWeight(s, date, weight))
    ensures HasWeight(AddWeight(s, date, weight), date)
    ensures AllWeighedAt(AddWeight(s, date, weight), date, weight)
  {
    var r := AddWeight(s, date, weight);
    if HasWeight(s, date) {
      var k :| 0 <= k < |s| && s[k].date == date;
      assert r[k].date == date;
      assert forall j :: 0 <= j < |r| ==> r[j].date == s[j].date;
    } else {
      assert r[|s|].date == date;
      assert forall j :: 0 <= j < |s| ==> r[j] == s[j] && s[j].date != date;
    }
  }

  /** `getLatestWeight`: the weight of the last entry in insertion order, `None` when empty. */
  function GetLatestWeight(s: seq<WeightEntry>): (r: Option<real>)
    ensures r.None? <==> s == []
  {
    if |s| == 0 then None else Some(s[|s| - 1].weight)
  }

  /**
   * What `getLatestWeight` returns after `addWeightEntry`: the new weight when the date was
   * new or belongs to the last entry; otherwise an in-place replacement of an older entry
   * leaves the latest weight unchanged.
   */
  lemma LatestWeightAfterAdd(s: seq<WeightEntry>, date: Day, weight: real)
    ensures GetLatestWeight(AddWeight(s, date, weight)) ==
      if !HasWeight(s, date) || s[|s| - 1].date == date then Some(weight) else GetLatestWeight(s)
  {
    var r := AddWeight(s, date, weight);
    if HasWeight(s, date) {
      assert r[|r| - 1] == if s[|s| - 1].date == date then WeightEntry(date, weight) else s[|s| - 1];
    }
  }

  /**
   * The latest weight is not the weight of the calendar-latest entry: back-filling an
   * earlier day after a later one makes the earlier day's weight the "latest".
   */
  lemma LatestWeightIsInsertionOrder()
    ensures var s := AddWeight(AddWeight([], 10, 70.0), 3, 80.0);
      GetLatestWeight(s) == Some(80.0) && |s| == 2 && s[0].date > s[1].date
  {
    var s1 := AddWeight([], 10, 70.0);
    assert s1 == [WeightEntry(10, 70.0)];
    assert !HasWeight(s1, 3);
  }

  /*************************************************************************
   * Weekly patterns
   *************************************************************************/

  predicate HasPattern(s: seq<WeeklyPattern>, id: string) {
    exists i :: 0 <= i < |s| && s[i].id == id
  }

  /** `weeklyPatterns.find(p => p.id === id)`. */
  function FindPattern(s: seq<WeeklyPattern>, id: string): (r: Option<WeeklyPattern>)
    ensures r.None? <==> !HasPattern(s, id)
    ensures r.Some? ==> r.value.id == id && r.value in s
  {
    if s == [] then None
    else if s[0].id == id then Some(s[0])
    else
      var r := FindPattern(s[1..], id);
      assert forall i :: 1 <= i < |s| ==> s[i] == s[1..][i - 1];
      r
  }

  /** The lookup finds the earliest pattern with the id, in insertion order. */
  lemma {:induction false} FindPatternFirst(s: seq<WeeklyPattern>, id: string, i: nat)
    requires i < |s| && s[i].id == id
    requires forall j :: 0 <= j < i ==> s[j].id != id
    ensures FindPattern(s, id) == Some(s[i])
  {
    if i > 0 {
      FindPatternFirst(s[1..], id, i - 1);
    }
  }

  /** `{ ...p, ...updates }` on a pattern: each field present in `u` wins, the others are kept. */
  function MergePattern(p: WeeklyPattern, u: PatternUpdate): (r: WeeklyPattern)
    ensures r.id == (if u.id.Some? then u.id.value else p.id)
    ensures r.name == (if u.name.Some? then u.name.value else p.name)
    ensures r.days == (if u.days.Some? then u.days.value else p.days)
    ensures u == PatternUpdate(None, None, None) ==> r == p
    ensures u.id.None? ==> r.id == p.id
  {
    WeeklyPattern(if u.id.Some? then u.id.value else p.id,
                  if u.name.Some? then u.name.value else p.name,
                  if u.days.Some? then u.days.value else p.days)
  }

  /** `updateWeeklyPattern`: merges `u` into every pattern whose id is `id`; nothing else changes. */
  function UpdatePatterns(s: seq<WeeklyPattern>, id: string, u: PatternUpdate): (r: seq<WeeklyPattern>)
    ensures |r| == |s|
    ensures forall i {:trigger r[i]} :: 0 <= i < |s| ==>
      r[i] == if s[i].id == id then MergePattern(s[i], u) else s[i]
    ensures !HasPattern(s, id) ==> r == s
  {
    if s == [] then []
    else
      var rest := UpdatePatterns(s[1..], id, u);
      assert forall i :: 1 <= i < |s| ==> s[i] == s[1..][i - 1];
      [if s[0].id == id then MergePattern(s[0], u) else s[0]] + rest
  }

  /** `deleteWeeklyPattern`: `filter(p => p.id !== id)`. */
  function DeletePattern(s: seq<WeeklyPattern>, id: string): (r: seq<WeeklyPattern>)
    ensures forall p :: p in r <==> p in s && p.id != id
    ensures !HasPattern(s, id) ==> r == s
    ensures HasPattern(s, id) ==> |r| < |s|
  {
    if s == [] then []
    else
      var rest := DeletePattern(s[1..], id);
      assert forall i :: 1 <= i < |s| ==> s[i] == s[1..][i - 1];
      if s[0].id == id then rest else [s[0]] + rest
  }

  lemma SeqAppendAssoc<T>(x: seq<T>, y: seq<T>, z: seq<T>)
    ensures x + (y + z) == (x + y) + z
  {
  }

  /** One step of the filter: the head is kept or dropped, then the tail is filtered. */
  lemma DeletePatternCons(s: seq<WeeklyPattern>, id: string)
    requires s != []
    ensures DeletePattern(s, id) == (if s[0].id == id then [] else [s[0]]) + DeletePattern(s[1..], id)
  {
  }

  /** The same step on a concatenation whose left part is not empty. */
  lemma DeletePatternConsAppend(a: seq<WeeklyPattern>, b: seq<WeeklyPattern>, id: string)
    requires a != []
    ensures DeletePattern(a + b, id) == (if a[0].id == id then [] else [a[0]]) + DeletePattern(a[1..] + b, id)
  {
    var ab := a + b;
    assert ab[0] == a[0] && ab[1..] == a[1..] + b;
    DeletePatternCons(ab, id);
  }

  /** Deletion works element by element, so the kept patterns stay in their original order. */
  lemma {:induction false} DeletePatternKeepsOrder(a: seq<WeeklyPattern>, b: seq<WeeklyPattern>, id: string)
    ensures DeletePattern(a + b, id) == DeletePattern(a, id) + DeletePattern(b, id)
  {
    if a == [] {
      assert a + b == b;
    } else {
      var head := if a[0].id == id then [] else [a[0]];
      calc {
        DeletePattern(a + b, id);
      == { DeletePatternConsAppend(a, b, id); }
        head + DeletePattern(a[1..] + b, id);
      == { DeletePatternKeepsOrder(a[1..], b, id); }
        head + (DeletePattern(a[1..], id) + DeletePattern(b, id));
      == { SeqAppendAssoc(head, DeletePattern(a[1..], id), DeletePattern(b, id)); }
        (head + DeletePattern(a[1..], id)) + DeletePattern(b, id);
      == { DeletePatternCons(a, id); }
        DeletePattern(a, id) + DeletePattern(b, id);
      }
    }
  }

  /** `pattern.days[dayName] || 2000`: a missing or zero entry falls back to the default. */
  function PatternTarget(days: map<string, int>, name: string): (t: int)
    ensures t != 0
    ensures name in days && days[name] != 0 ==> t == days[name]
    ensures name !in days || days[name] == 0 ==> t == DefaultTarget
  {
    if name in days && days[name] != 0 then days[name] else DefaultTarget
  }

  /** The record written for day `d` when its target is `t`: nothing consumed, fasting when low. */
  function SeededRecord(d: Day, t: int): DailyCalories {
    DailyCalories(d, t, 0, t <= FastingThreshold)
  }

  /** The record a pattern writes for day `d`, from the target of that day's weekday. */
  function PatternRecord(days: map<string, int>, d: Day): (rec: DailyCalories)
    ensures rec.date == d && rec.consumed == 0 && rec.target != 0
    ensures rec.isFasting <==> rec.target <= FastingThreshold
  {
    SeededRecord(d, PatternTarget(days, DayName(d)))
  }

  /** The targets a pattern gives the seven days from `start`, in order. */
  function WeekTargets(days: map<string, int>, start: Day): seq<int> {
    seq(7, k requires 0 <= k < 7 => PatternTarget(days, DayName(start + k)))
  }

  lemma WeekTargetsAt(days: map<string, int>, start: Day, d: Day)
    requires start <= d < start + 7
    ensures WeekTargets(days, start)[d - start] == PatternTarget(days, DayName(d))
  {
    assert start + (d - start) == d;
  }

  /** The first `n` steps of the loop in `applyWeeklyPattern`, day `start + k` getting `targets[k]`. */
  function ApplyDays(s: seq<DailyCalories>, start: Day, targets: seq<int>, n: nat): (r: seq<DailyCalories>)
    requires n <= |targets|
    ensures |s| <= |r| <= |s| + n
    ensures n == 0 ==> r == s
  {
    if n == 0 then s
    else
      var t := targets[n - 1];
      AddDaily(ApplyDays(s, start, targets, n - 1), start + n - 1, t, 0, t <= FastingThreshold)
  }

  /** `applyWeeklyPattern`: nothing happens when no pattern has the id. */
  function ApplyPattern(s: seq<DailyCalories>, patterns: seq<WeeklyPattern>, id: string, start: Day)
    : (r: seq<DailyCalories>)
    ensures !HasPattern(patterns, id) ==> r == s
  {
    match FindPattern(patterns, id)
    case None => s
    case Some(p) => ApplyDays(s, start, WeekTargets(p.days, start), 7)
  }

  /** Records present before keep their position and date; those dated outside `[start, start + n)` keep their value. */
  ghost predicate KeptOutside(s: seq<DailyCalories>, r: seq<DailyCalories>, start: Day, n: nat) {
    && |s| <= |r| <= |s| + n
    && (forall j :: 0 <= j < |s| ==> r[j].date == s[j].date)
    && (forall j :: 0 <= j < |s| && !(start <= s[j].date < start + n) ==> r[j] == s[j])
    && (forall j :: |s| <= j < |r| ==> start <= r[j].date < start + n)
  }

  /** Every day of `[start, start + n)` has a record, and each record there is seeded from its day's target. */
  ghost predicate SeededWindow(r: seq<DailyCalories>, start: Day, targets: seq<int>, n: nat)
    requires n <= |targets|
  {
    && (forall d :: start <= d < start + n ==> HasDaily(r, d))
    && (forall j :: 0 <= j < |r| && start <= r[j].date < start + n ==>
          r[j] == SeededRecord(r[j].date, targets[r[j].date - start]))
  }

  /** Step `n` of pattern application upserts the seeded record of day `start + n - 1`. */
  lemma ApplyDaysStep(s: seq<DailyCalories>, start: Day, targets: seq<int>, n: nat)
    requires 0 < n <= |targets|
    ensures Upserted(ApplyDays(s, start, targets, n - 1), ApplyDays(s, start, targets, n),
                     SeededRecord(start + n - 1, targets[n - 1]))
  {
    var t := targets[n - 1];
    AddDailyStores(ApplyDays(s, start, targets, n - 1), start + n - 1, t, 0, t <= FastingThreshold);
  }

  /** One upsert of a day at the end of the window extends `KeptOutside` by that day. */
  lemma KeptOutsideStep(s: seq<DailyCalories>, prev: seq<DailyCalories>, r: seq<DailyCalories>,
                        rec: DailyCalories, start: Day, n: nat)
    requires n > 0 && rec.date == start + n - 1
    requires KeptOutside(s, prev, start, n - 1)
    requires Upserted(prev, r, rec)
    ensures KeptOutside(s, r, start, n)
  {
  }

  /**
   * After `n` steps of pattern application, records already present keep their position and
   * date, those dated outside the window keep their value, and the records added were
   * appended at the end and are dated inside the window.
   */
  lemma {:induction false} ApplyDaysShape(s: seq<DailyCalories>, start: Day, targets: seq<int>, n: nat)
    requires n <= |targets|
    ensures KeptOutside(s, ApplyDays(s, start, targets, n), start, n)
  {
    if n > 0 {
      ApplyDaysShape(s, start, targets, n - 1);
      ApplyDaysStep(s, start, targets, n);
      KeptOutsideStep(s, ApplyDays(s, start, targets, n - 1), ApplyDays(s, start, targets, n),
                      SeededRecord(start + n - 1, targets[n - 1]), start, n);
    }
  }

  /** One upsert of the seeded record of the day at the end of the window extends `SeededWindow` by that day. */
  lemma SeededWindowStep(prev: seq<DailyCalories>, r: seq<DailyCalories>, start: Day, targets: seq<int>, n: nat)
    requires 0 < n <= |targets|
    requires SeededWindow(prev, start, targets, n - 1)
    requires Upserted(prev, r, SeededRecord(start + n - 1, targets[n - 1]))
    ensures SeededWindow(r, start, targets, n)
  {
    var d := start + n - 1;
    forall j | 0 <= j < |r| && start <= r[j].date < start + n
      ensures r[j] == SeededRecord(r[j].date, targets[r[j].date - start])
    {
      if r[j].date != d {
        assert j < |prev| && r[j] == prev[j];
      }
    }
    forall e | start <= e < d ensures HasDaily(r, e) {
      assert HasDaily(prev, e);
      var j :| 0 <= j < |prev| && prev[j].date == e;
      assert r[j].date == e;
    }
  }

  /**
   * After `n` steps of pattern application, every day of the window has a record, and every
   * record dated in the window is the one seeded from that day's target: an earlier `consumed`
   * value there has been overwritten with 0.
   */
  lemma {:induction false} ApplyDaysWindow(s: seq<DailyCalories>, start: Day, targets: seq<int>, n: nat)
    requires n <= |targets|
    ensures SeededWindow(ApplyDays(s, start, targets, n), start, targets, n)
  {
    if n > 0 {
      ApplyDaysWindow(s, start, targets, n - 1);
      ApplyDaysStep(s, start, targets, n);
      SeededWindowStep(ApplyDays(s, start, targets, n - 1), ApplyDays(s, start, targets, n), start, targets, n);
    }
  }

  /** Pattern application keeps calorie-record dates unique. */
  lemma {:induction false} ApplyDaysUnique(s: seq<DailyCalories>, start: Day, targets: seq<int>, n: nat)
    requires n <= |targets|
    requires UniqueDailyDates(s)
    ensures UniqueDailyDates(ApplyDays(s, start, targets, n))
  {
    if n > 0 {
      ApplyDaysUnique(s, start, targets, n - 1);
      var t := targets[n - 1];
      AddDailyKeepsUnique(ApplyDays(s, start, targets, n - 1), start + n - 1, t, 0, t <= FastingThreshold);
    }
  }

  /** Inside a seeded window, the lookup of a day finds the record seeded for it. */
  lemma SeededWindowLookup(r: seq<DailyCalories>, start: Day, targets: seq<int>, n: nat, d: Day)
    requires n <= |targets| && SeededWindow(r, start, targets, n)
    requires start <= d < start + n
    ensures GetDailyCalories(r, d) == Some(SeededRecord(d, targets[d - start]))
  {
    var found := GetDailyCalories(r, d);
    assert HasDaily(r, d);
    var j :| 0 <= j < |r| && r[j] == found.value;
  }

  /**
   * Each of the seven days from `start` ends up holding exactly the pattern's record for its
   * weekday, with `consumed` reset to 0.
   */
  lemma ApplyPatternResult(s: seq<DailyCalories>, patterns: seq<WeeklyPattern>, id: string, start: Day)
    requires HasPattern(patterns, id)
    ensures forall d :: start <= d < start + 7 ==>
      GetDailyCalories(ApplyPattern(s, patterns, id, start), d)
      == Some(PatternRecord(FindPattern(patterns, id).value.days, d))
  {
    var days := FindPattern(patterns, id).value.days;
    var targets := WeekTargets(days, start);
    var r := ApplyPattern(s, patterns, id, start);
    assert r == ApplyDays(s, start, targets, 7);
    ApplyDaysWindow(s, start, targets, 7);
    forall d | start <= d < start + 7
      ensures GetDailyCalories(r, d) == Some(PatternRecord(days, d))
    {
      SeededWindowLookup(r, start, targets, 7, d);
      WeekTargetsAt(days, start, d);
    }
  }

  /*************************************************************************
   * Calculators
   *************************************************************************/

  /** `activityMultipliers`, as exact decimals. */
  function ActivityMultiplier(level: ActivityLevel): (m: real)
    ensures 1.2 <= m <= 1.9
  {
    match level
    case Sedentary => 1.2
    case Light => 1.375
    case Moderate => 1.55
    case Active => 1.725
    case VeryActive => 1.9
  }

  /** Basal metabolic rate by the Mifflin-St Jeor equation. */
  function Bmr(p: UserProfile): (bmr: real)
    ensures p.gender == Male ==> bmr == 10.0 * p.weight + 6.25 * p.height - 5.0 * p.age + 5.0
    ensures p.gender == Female ==> bmr == 10.0 * p.weight + 6.25 * p.height - 5.0 * p.age - 161.0
  {
    var base := 10.0 * p.weight + 6.25 * p.height - 5.0 * p.age;
    base + (if p.gender == Male then 5.0 else -161.0)
  }

  /** At the same weight, height and age, the male formula gives exactly 166 kcal more. */
  lemma BmrGenderGap(p: UserProfile)
    ensures Bmr(p.(gender := Male)) - Bmr(p.(gender := Female)) == 166.0
  {
  }

  /** `Math.round`: the nearest integer, halves rounded up. */
  function Round(x: real): (n: int)
    ensures n as real - 0.5 <= x < n as real + 0.5
  {
    (x + 0.5).Floor
  }

  /** `calculateTDEE`: `None` without a profile, else BMR times the activity multiplier, rounded. */
  function CalculateTDEE(profile: Option<UserProfile>): (r: Option<int>)
    ensures r.None? <==> profile.None?
    ensures r.Some? ==>
      var exact := Bmr(profile.value) * ActivityMultiplier(profile.value.activityLevel);
      r.value as real - 0.5 <= exact < r.value as real + 0.5
  {
    match profile
    case None => None
    case Some(p) => Some(Round(Bmr(p) * ActivityMultiplier(p.activityLevel)))
  }

  /** A male, 30 years, 170 cm, 70 kg, moderately active: BMR 1617.5, TDEE round(2507.125) = 2507. */
  lemma TdeeExample()
    ensures CalculateTDEE(Some(UserProfile(30.0, 170.0, 70.0, Moderate, Male))) == Some(2507)
  {
    var p := UserProfile(30.0, 170.0, 70.0, Moderate, Male);
    assert Bmr(p) == 1617.5;
    assert Bmr(p) * 1.55 + 0.5 == 2507.625;
  }

  /** Sum of `consumed` over the records dated in `[lo, hi]`: the filter and reduce of `getWeeklyDeficit`. */
  function SumConsumed(s: seq<DailyCalories>, lo: Day, hi: Day): (sum: int)
    ensures hi < lo ==> sum == 0
    ensures (forall j :: 0 <= j < |s| ==> s[j].consumed >= 0) ==> sum >= 0
  {
    if s == [] then 0
    else
      assert forall j :: 1 <= j < |s| ==> s[1..][j - 1] == s[j];
      (if lo <= s[0].date <= hi then s[0].consumed else 0) + SumConsumed(s[1..], lo, hi)
  }

  /**
   * `getWeeklyDeficit`: 0 when the TDEE is absent or zero, else seven days of TDEE minus what
   * was consumed on records dated in the seven days from `start`.
   */
  function GetWeeklyDeficit(profile: Option<UserProfile>, s: seq<DailyCalories>, start: Day): (r: int)
    ensures CalculateTDEE(profile).None? || CalculateTDEE(profile).value == 0 ==> r == 0
    ensures CalculateTDEE(profile).Some? && CalculateTDEE(profile).value != 0 ==>
      r + SumConsumed(s, start, start + 6) == 7 * CalculateTDEE(profile).value
  {
    var tdee := CalculateTDEE(profile);
    if tdee.None? || tdee.value == 0 then 0
    else 7 * tdee.value - SumConsumed(s, start, start + 6)
  }

  /** `getEstimatedFatLoss`: kilograms of fat the weekly deficit amounts to. */
  function GetEstimatedFatLoss(profile: Option<UserProfile>, s: seq<DailyCalories>, start: Day): (kg: real)
    ensures kg * KcalPerKgFat as real == GetWeeklyDeficit(profile, s, start) as real
    ensures kg > 0.0 <==> GetWeeklyDeficit(profile, s, start) > 0
  {
    GetWeeklyDeficit(profile, s, start) as real / KcalPerKgFat as real
  }

  /** What was consumed on day `d`: a day without a record contributes 0, not a default target. */
  function ConsumedOn(s: seq<DailyCalories>, d: Day): int {
    match GetDailyCalories(s, d)
    case None => 0
    case Some(rec) => rec.consumed
  }

  /** Day-by-day reference: consumption summed over the `n` days from `lo`. */
  function WindowConsumed(s: seq<DailyCalories>, lo: Day, n: nat): int {
    if n == 0 then 0 else WindowConsumed(s, lo, n - 1) + ConsumedOn(s, lo + n - 1)
  }

  lemma {:induction false} WindowConsumedEmpty(lo: Day, n: nat)
    ensures WindowConsumed([], lo, n) == 0
  {
    if n > 0 {
      WindowConsumedEmpty(lo, n - 1);
    }
  }

  lemma {:induction false} WindowConsumedCons(x: DailyCalories, t: seq<DailyCalories>, lo: Day, n: nat)
    requires !HasDaily(t, x.date)
    ensures WindowConsumed([x] + t, lo, n) ==
      WindowConsumed(t, lo, n) + (if lo <= x.date < lo + n then x.consumed else 0)
  {
    if n > 0 {
      WindowConsumedCons(x, t, lo, n - 1);
      var s := [x] + t;
      assert s[1..] == t;
      var d := lo + n - 1;
      assert GetDailyCalories(s, d) == if d == x.date then Some(x) else GetDailyCalories(t, d);
    }
  }

  /**
   * With unique dates, the record-filtering sum of `getWeeklyDeficit` over `[lo, lo + n - 1]`
   * equals the day-by-day sum of what each of those days recorded.
   */
  lemma {:induction false} SumConsumedByDay(s: seq<DailyCalories>, lo: Day, n: nat)
    requires UniqueDailyDates(s)
    ensures SumConsumed(s, lo, lo + n - 1) == WindowConsumed(s, lo, n)
  {
    if s == [] {
      WindowConsumedEmpty(lo, n);
    } else {
      var t := s[1..];
      assert s == [s[0]] + t;
      assert !HasDaily(t, s[0].date) by {
        forall i | 0 <= i < |t| ensures t[i].date != s[0].date {
          assert t[i] == s[i + 1];
        }
      }
      SumConsumedByDay(t, lo, n);
      WindowConsumedCons(s[0], t, lo, n);
    }
  }

  /** So the weekly deficit is seven days of TDEE minus the intake of each of the seven days. */
  lemma WeeklyDeficitByDay(profile: Option<UserProfile>, s: seq<DailyCalories>, start: Day)
    requires UniqueDailyDates(s)
    requires CalculateTDEE(profile).Some? && CalculateTDEE(profile).value != 0
    ensures GetWeeklyDeficit(profile, s, start) == 7 * CalculateTDEE(profile).value - WindowConsumed(s, start, 7)
  {
    SumConsumedByDay(s, start, 7);
  }

  lemma {:induction false} SumConsumedZero(s: seq<DailyCalories>, lo: Day, hi: Day)
    requires forall j :: 0 <= j < |s| && lo <= s[j].date <= hi ==> s[j].consumed == 0
    ensures SumConsumed(s, lo, hi) == 0
  {
    if s != [] {
      assert forall j :: 1 <= j < |s| ==> s[1..][j - 1] == s[j];
      SumConsumedZero(s[1..], lo, hi);
    }
  }

  /**
   * Right after a pattern is applied from `start`, nothing is recorded as consumed in that
   * week, so its deficit is the full seven days of TDEE.
   */
  lemma DeficitAfterApply(profile: Option<UserProfile>, s: seq<DailyCalories>, patterns: seq<WeeklyPattern>,
                          id: string, start: Day)
    requires HasPattern(patterns, id)
    requires CalculateTDEE(profile).Some? && CalculateTDEE(profile).value != 0
    ensures GetWeeklyDeficit(profile, ApplyPattern(s, patterns, id, start), start)
            == 7 * CalculateTDEE(profile).value
  {
    var targets := WeekTargets(FindPattern(patterns, id).value.days, start);
    var r := ApplyPattern(s, patterns, id, start);
    assert r == ApplyDays(s, start, targets, 7);
    ApplyDaysWindow(s, start, targets, 7);
    SumConsumedZero(r, start, start + 6);
  }

  /*************************************************************************
   * The store
   *************************************************************************/

  class Store {
    var userProfile: Option<UserProfile>
    var dailyCalories: seq<DailyCalories>
    var weightEntries: seq<WeightEntry>
    var weeklyPatterns: seq<WeeklyPattern>

    /** At most one calorie record and one weight entry per date. */
    ghost predicate Valid()
      reads this
    {
      UniqueDailyDates(dailyCalories) && UniqueWeightDates(weightEntries)
    }

    /** The initial state: no profile and empty collections. */
    constructor ()
      ensures Valid()
      ensures userProfile == None && dailyCalories == [] && weightEntries == [] && weeklyPatterns == []
    {
      userProfile := None;
      dailyCalories := [];
      weightEntries := [];
      weeklyPatterns := [];
    }

    /** Replaces the profile wholesale, without any range check. */
    method SetUserProfile(profile: UserProfile)
      modifies this`userProfile
      ensures userProfile == Some(profile)
    {
      userProfile := Some(profile);
    }

    method UpdateDailyCalories(date: Day, updates: DailyUpdate)
      modifies this`dailyCalories
      ensures dailyCalories == UpdateDaily(old(dailyCalories), date, updates)
      ensures old(Valid()) ==> Valid()
    {
      if Valid() {
        UpdateDailyKeepsUnique(dailyCalories, date, updates);
      }
      dailyCalories := UpdateDaily(dailyCalories, date, updates);
    }

    method AddDailyCalories(date: Day, target: int, consumed: int, isFasting: bool)
      modifies this`dailyCalories
      ensures dailyCalories == AddDaily(old(dailyCalories), date, target, consumed, isFasting)
      ensures old(Valid()) ==> Valid()
    {
      if Valid() {
        AddDailyKeepsUnique(dailyCalories, date, target, consumed, isFasting);
      }
      var existing := GetDailyCalories(dailyCalories, date);
      if existing.Some? {
        UpdateDailyCalories(date, DailyUpdate(Some(target), Some(consumed), Some(isFasting)));
      } else {
        dailyCalories := dailyCalories + [DailyCalories(date, target, consumed, isFasting)];
      }
    }

    method AddWeightEntry(date: Day, weight: real)
      modifies this`weightEntries
      ensures weightEntries == AddWeight(old(weightEntries), date, weight)
      ensures old(Valid()) ==> Valid()
    {
      if Valid() {
        AddWeightExactlyOne(weightEntries, date, weight);
      }
      if HasWeight(weightEntries, date) {
        weightEntries := ReplaceWeight(weightEntries, date, weight);
      } else {
        weightEntries := weightEntries + [WeightEntry(date, weight)];
      }
    }

    method AddWeeklyPattern(pattern: WeeklyPattern)
      modifies this`weeklyPatterns
      ensures weeklyPatterns == old(weeklyPatterns) + [pattern]
    {
      weeklyPatterns := weeklyPatterns + [pattern];
    }

    method UpdateWeeklyPattern(id: string, updates: PatternUpdate)
      modifies this`weeklyPatterns
      ensures weeklyPatterns == UpdatePatterns(old(weeklyPatterns), id, updates)
    {
      weeklyPatterns := UpdatePatterns(weeklyPatterns, id, updates);
    }

    method DeleteWeeklyPattern(id: string)
      modifies this`weeklyPatterns
      ensures weeklyPatterns == DeletePattern(old(weeklyPatterns), id)
    {
      weeklyPatterns := DeletePattern(weeklyPatterns, id);
    }

    /**
     * Writes the pattern's targets onto the seven days from `startDate`, one
     * `AddDailyCalories` call per day, resetting `consumed` to 0 on each of them.
     */
    method ApplyWeeklyPattern(patternId: string, startDate: Day)
      modifies this`dailyCalories
      ensures dailyCalories == ApplyPattern(old(dailyCalories), weeklyPatterns, patternId, startDate)
      ensures old(Valid()) ==> Valid()
    {
      var pattern := FindPattern(weeklyPatterns, patternId);
      if pattern.None? {
        return;
      }
      ghost var before := dailyCalories;
      ghost var targets := WeekTargets(pattern.value.days, startDate);
      for i := 0 to 7
        invariant dailyCalories == ApplyDays(before, startDate, targets, i)
        invariant old(Valid()) ==> Valid()
      {
        var date := startDate + i;
        var target := PatternTarget(pattern.value.days, DayName(date));
        assert target == targets[i];
        AddDailyCalories(date, target, 0, target <= FastingThreshold);
      }
    }
  }
}
