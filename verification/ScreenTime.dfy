/**
 * Screen-time aggregation (ScreenTimeViewModel.kt): the max-merge of the event
 * loop's usage with the platform's per-package totals, the minute totals and averages, the top-5
 * ranking by display name, the fixed fallback data set, and the UI state.
 * The platform queries (permission check, event and stats queries, clock) are
 * inputs.
 */
module ScreenTime {
  import opened Wrappers
  import opened Text
  import opened Sums
  import opened LinkedMaps
  import opened KotlinInt
  import opened UsageEvents
  import opened AppNames
  import opened Sorting

  const MillisPerMinute: int := 60000
  const MillisPerDay: int := 86400000
  /** `1000 * 60 * 7`: minutes per day averaged over a week. */
  const MillisPerWeekMinute: int := 420000
  const TopAppCount: nat := 5

  // ---------------------------------------------------------------------------
  // Merge with the platform's per-package totals

  /** One per-package total from the platform (or built from the merged map). */
  datatype UsageStatsData = UsageStatsData(packageName: string, totalTimeInForeground: int, firstTimeStamp: int, lastTimeStamp: int)

  function Max(a: int, b: int): int {
    if a >= b then a else b
  }

  /** One step of the merge: keep the larger of the recorded and the reported time. */
  function MergeStat(m: LinkedMap<string, int>, stats: UsageStatsData): (r: LinkedMap<string, int>)
    requires m.Valid()
    ensures r.Valid()
  {
    if stats.totalTimeInForeground > 0
    then m.Put(stats.packageName, Max(m.Get(stats.packageName).GetOr(0), stats.totalTimeInForeground))
    else m
  }

  /** The merge of m with the stats, in order. */
  function MergeAll(m: LinkedMap<string, int>, stats: seq<UsageStatsData>): (r: LinkedMap<string, int>)
    requires m.Valid()
    ensures r.Valid()
  {
    if stats == [] then m else MergeStat(MergeAll(m, stats[..|stats| - 1]), stats[|stats| - 1])
  }

  /** `combinedMap = appUsageMap.toMutableMap()` followed by the `forEach` over the day's stats. */
  method MergeWithStats(appUsageMap: LinkedMap<string, int>, todayStats: seq<UsageStatsData>)
    returns (combinedMap: LinkedMap<string, int>)
    requires appUsageMap.Valid()
    ensures combinedMap == MergeAll(appUsageMap, todayStats)
  {
    combinedMap := appUsageMap;
    for i := 0 to |todayStats|
      invariant combinedMap.Valid()
      invariant combinedMap == MergeAll(appUsageMap, todayStats[..i])
    {
      var stats := todayStats[i];
      if stats.totalTimeInForeground > 0 {
        var existingTime := combinedMap.Get(stats.packageName).GetOr(0);
        combinedMap := combinedMap.Put(stats.packageName, Max(existingTime, stats.totalTimeInForeground));
      }
      assert todayStats[..i + 1][..i] == todayStats[..i];
    }
    assert todayStats[..|todayStats|] == todayStats;
  }

  /** Some stat for the package reports a positive time. */
  predicate HasPositiveStat(stats: seq<UsageStatsData>, packageName: string) {
    exists i :: 0 <= i < |stats| && stats[i].packageName == packageName && stats[i].totalTimeInForeground > 0
  }

  /** The largest positive time reported for the package, or 0. */
  function MaxPositiveTime(stats: seq<UsageStatsData>, packageName: string): int {
    if stats == [] then 0
    else
      var last := stats[|stats| - 1];
      var rest := MaxPositiveTime(stats[..|stats| - 1], packageName);
      if last.packageName == packageName && last.totalTimeInForeground > 0
      then Max(rest, last.totalTimeInForeground)
      else rest
  }

  lemma HasPositiveStatPrefix(stats: seq<UsageStatsData>, packageName: string)
    requires stats != []
    ensures HasPositiveStat(stats, packageName) <==>
              HasPositiveStat(stats[..|stats| - 1], packageName)
              || (stats[|stats| - 1].packageName == packageName && stats[|stats| - 1].totalTimeInForeground > 0)
  {
    var prefix := stats[..|stats| - 1];
    if HasPositiveStat(stats, packageName) {
      var i :| 0 <= i < |stats| && stats[i].packageName == packageName && stats[i].totalTimeInForeground > 0;
      if i < |prefix| {
        assert prefix[i] == stats[i];
      }
    }
    if HasPositiveStat(prefix, packageName) {
      var i :| 0 <= i < |prefix| && prefix[i].packageName == packageName && prefix[i].totalTimeInForeground > 0;
      assert stats[i] == prefix[i];
    }
  }

  /**
   * The merged map holds a package exactly when the event map held it or some
   * stat reported positive time for it, and its time is the larger of the two.
   */
  lemma {:induction false} MaxPositiveTimeRange(stats: seq<UsageStatsData>, packageName: string)
    ensures MaxPositiveTime(stats, packageName) >= 0
    ensures !HasPositiveStat(stats, packageName) ==> MaxPositiveTime(stats, packageName) == 0
  {
    if stats != [] {
      MaxPositiveTimeRange(stats[..|stats| - 1], packageName);
      HasPositiveStatPrefix(stats, packageName);
    }
  }

  lemma {:induction false} MergeAllValue(m: LinkedMap<string, int>, stats: seq<UsageStatsData>, packageName: string)
    requires m.Valid() && AllPositive(m)
    ensures packageName in MergeAll(m, stats).values <==> packageName in m.values || HasPositiveStat(stats, packageName)
    ensures packageName in MergeAll(m, stats).values ==>
              MergeAll(m, stats).values[packageName] == Max(m.Get(packageName).GetOr(0), MaxPositiveTime(stats, packageName))
  {
    if stats != [] {
      MergeAllValue(m, stats[..|stats| - 1], packageName);
      HasPositiveStatPrefix(stats, packageName);
      MaxPositiveTimeRange(stats[..|stats| - 1], packageName);
    }
  }

  /** The merge loses no package of the event map and never lowers its time. */
  lemma MergeKeepsEventUsage(m: LinkedMap<string, int>, stats: seq<UsageStatsData>, packageName: string)
    requires m.Valid() && AllPositive(m) && packageName in m.values
    ensures packageName in MergeAll(m, stats).values
    ensures MergeAll(m, stats).values[packageName] >= m.values[packageName]
  {
    MergeAllValue(m, stats, packageName);
  }

  /** Without any positive stat the merge changes nothing. */
  lemma {:induction false} MergeWithoutPositiveStats(m: LinkedMap<string, int>, stats: seq<UsageStatsData>)
    requires m.Valid()
    requires forall i :: 0 <= i < |stats| ==> stats[i].totalTimeInForeground <= 0
    ensures MergeAll(m, stats) == m
  {
    if stats != [] {
      MergeWithoutPositiveStats(m, stats[..|stats| - 1]);
    }
  }

  /** The merged map's entries, in map order, stamped with the query window. */
  function StampedStats(combinedMap: LinkedMap<string, int>, startTime: int, endTime: int): (r: seq<UsageStatsData>)
    requires combinedMap.Valid()
    ensures |r| == |combinedMap.keys|
    ensures forall i :: 0 <= i < |r| ==>
              r[i] == UsageStatsData(combinedMap.keys[i], combinedMap.values[combinedMap.keys[i]], startTime, endTime)
  {
    seq(|combinedMap.keys|, i requires 0 <= i < |combinedMap.keys| =>
          UsageStatsData(combinedMap.keys[i], combinedMap.values[combinedMap.keys[i]], startTime, endTime))
  }

  // ---------------------------------------------------------------------------
  // Minutes, totals and averages

  function Times(stats: seq<UsageStatsData>): (r: seq<int>)
    ensures |r| == |stats|
    ensures forall i :: 0 <= i < |stats| ==> r[i] == stats[i].totalTimeInForeground
  {
    seq(|stats|, i requires 0 <= i < |stats| => stats[i].totalTimeInForeground)
  }

  /** Today's total in whole minutes. */
  function TotalScreenTime(todayStats: seq<UsageStatsData>): int {
    TruncDiv(SeqSum(Times(todayStats)), MillisPerMinute)
  }

  /** The week's total in whole minutes. */
  function WeeklyTotal(weeklyStats: seq<UsageStatsData>): int {
    TruncDiv(SeqSum(Times(weeklyStats)), MillisPerMinute)
  }

  /** The week's total over seven days, or today's total when there is no weekly data. */
  function DailyAverage(todayStats: seq<UsageStatsData>, weeklyStats: seq<UsageStatsData>): int {
    if weeklyStats != [] then TruncDiv(SeqSum(Times(weeklyStats)), MillisPerWeekMinute) else TotalScreenTime(todayStats)
  }

  /** The daily average is the weekly total in minutes divided by seven, as the screen shows it. */
  lemma DailyAverageIsWeeklyTotalOverSeven(todayStats: seq<UsageStatsData>, weeklyStats: seq<UsageStatsData>)
    requires weeklyStats != []
    ensures DailyAverage(todayStats, weeklyStats) == TruncDiv(WeeklyTotal(weeklyStats), 7)
  {
    TruncDivTwice(SeqSum(Times(weeklyStats)), MillisPerMinute, 7);
  }

  // ---------------------------------------------------------------------------
  // Usage by display name
  //
  // The aggregation is stated for any naming function `nameOf`; the view model
  // uses DisplayName.

  /** `appUsageMap[appName] = (appUsageMap[appName] ?: 0L) + time` for a stat with positive time. */
  function AddByName(m: LinkedMap<string, int>, stats: UsageStatsData, nameOf: string -> string): (r: LinkedMap<string, int>)
    requires m.Valid()
    ensures r.Valid()
  {
    Credit(m, nameOf(stats.packageName), stats.totalTimeInForeground)
  }

  /** Usage per name over the stats, in order. */
  function UsageByName(stats: seq<UsageStatsData>, nameOf: string -> string): (r: LinkedMap<string, int>)
    ensures r.Valid()
  {
    if stats == [] then Empty() else AddByName(UsageByName(stats[..|stats| - 1], nameOf), stats[|stats| - 1], nameOf)
  }

  /**
   * The `forEach` of processUsageStats that fills the per-name map. The view
   * model passes DisplayName as `nameOf`.
   */
  method AggregateByName(todayStats: seq<UsageStatsData>, nameOf: string -> string)
    returns (appUsageMap: LinkedMap<string, int>)
    ensures appUsageMap == UsageByName(todayStats, nameOf)
  {
    appUsageMap := Empty();
    for i := 0 to |todayStats|
      invariant appUsageMap == UsageByName(todayStats[..i], nameOf)
    {
      var stats := todayStats[i];
      UsageByNameSnoc(todayStats, i, nameOf);
      if stats.totalTimeInForeground > 0 {
        var appName := nameOf(stats.packageName);
        AddByNamePositive(appUsageMap, stats, nameOf, appName);
        appUsageMap := appUsageMap.Put(appName, appUsageMap.Get(appName).GetOr(0) + stats.totalTimeInForeground);
      }
    }
    assert todayStats[..|todayStats|] == todayStats;
  }

  lemma AddByNamePositive(m: LinkedMap<string, int>, stats: UsageStatsData, nameOf: string -> string, appName: string)
    requires m.Valid() && stats.totalTimeInForeground > 0 && appName == nameOf(stats.packageName)
    ensures AddByName(m, stats, nameOf) == m.Put(appName, m.Get(appName).GetOr(0) + stats.totalTimeInForeground)
  {
  }

  lemma UsageByNameSnoc(stats: seq<UsageStatsData>, i: nat, nameOf: string -> string)
    requires i < |stats|
    ensures UsageByName(stats[..i + 1], nameOf) == AddByName(UsageByName(stats[..i], nameOf), stats[i], nameOf)
  {
    assert stats[..i + 1][..i] == stats[..i];
  }

  /** Some stat with positive time has this name. */
  predicate HasPositiveNamed(stats: seq<UsageStatsData>, nameOf: string -> string, appName: string) {
    exists i :: 0 <= i < |stats| && nameOf(stats[i].packageName) == appName && stats[i].totalTimeInForeground > 0
  }

  /** The sum of the positive times of the stats with this name. */
  function NamedTotal(stats: seq<UsageStatsData>, nameOf: string -> string, appName: string): int {
    if stats == [] then 0
    else
      var last := stats[|stats| - 1];
      NamedTotal(stats[..|stats| - 1], nameOf, appName)
      + (if nameOf(last.packageName) == appName && last.totalTimeInForeground > 0 then last.totalTimeInForeground else 0)
  }

  /** The sum of all positive times. */
  function PositiveTotal(stats: seq<UsageStatsData>): int {
    if stats == [] then 0
    else
      var last := stats[|stats| - 1];
      PositiveTotal(stats[..|stats| - 1]) + (if last.totalTimeInForeground > 0 then last.totalTimeInForeground else 0)
  }

  lemma HasPositiveNamedPrefix(stats: seq<UsageStatsData>, nameOf: string -> string, appName: string)
    requires stats != []
    ensures HasPositiveNamed(stats, nameOf, appName) <==>
              HasPositiveNamed(stats[..|stats| - 1], nameOf, appName)
              || (nameOf(stats[|stats| - 1].packageName) == appName && stats[|stats| - 1].totalTimeInForeground > 0)
  {
    var prefix := stats[..|stats| - 1];
    if HasPositiveNamed(stats, nameOf, appName) {
      var i :| 0 <= i < |stats| && nameOf(stats[i].packageName) == appName && stats[i].totalTimeInForeground > 0;
      if i < |prefix| {
        assert prefix[i] == stats[i];
      }
    }
    if HasPositiveNamed(prefix, nameOf, appName) {
      var i :| 0 <= i < |prefix| && nameOf(prefix[i].packageName) == appName && prefix[i].totalTimeInForeground > 0;
      assert stats[i] == prefix[i];
    }
  }

  /**
   * A name is in the map exactly when some stat with positive time carries it,
   * and its value is the sum of those stats' times (so it is positive).
   */
  lemma {:induction false} NamedTotalRange(stats: seq<UsageStatsData>, nameOf: string -> string, appName: string)
    ensures NamedTotal(stats, nameOf, appName) >= 0
    ensures !HasPositiveNamed(stats, nameOf, appName) ==> NamedTotal(stats, nameOf, appName) == 0
  {
    if stats != [] {
      NamedTotalRange(stats[..|stats| - 1], nameOf, appName);
      HasPositiveNamedPrefix(stats, nameOf, appName);
    }
  }

  lemma {:induction false} UsageByNameValue(stats: seq<UsageStatsData>, nameOf: string -> string, appName: string)
    ensures appName in UsageByName(stats, nameOf).values <==> HasPositiveNamed(stats, nameOf, appName)
    ensures appName in UsageByName(stats, nameOf).values ==>
              UsageByName(stats, nameOf).values[appName] == NamedTotal(stats, nameOf, appName) > 0
  {
    if stats != [] {
      UsageByNameValue(stats[..|stats| - 1], nameOf, appName);
      HasPositiveNamedPrefix(stats, nameOf, appName);
      NamedTotalRange(stats[..|stats| - 1], nameOf, appName);
    }
  }

  /** No time is lost or invented: the map's total is the sum of the positive times. */
  lemma {:induction false} UsageByNameTotal(stats: seq<UsageStatsData>, nameOf: string -> string)
    ensures Total(UsageByName(stats, nameOf)) == PositiveTotal(stats)
  {
    if stats == [] {
      assert ValueList(UsageByName(stats, nameOf)) == [];
    } else {
      var prefix := stats[..|stats| - 1];
      UsageByNameTotal(prefix, nameOf);
      CreditTotal(UsageByName(prefix, nameOf), nameOf(stats[|stats| - 1].packageName), stats[|stats| - 1].totalTimeInForeground);
    }
  }

  lemma UsageByNameEmpty(stats: seq<UsageStatsData>, nameOf: string -> string)
    ensures UsageByName(stats, nameOf).values == map[] <==> forall i :: 0 <= i < |stats| ==> stats[i].totalTimeInForeground <= 0
  {
    if exists i :: 0 <= i < |stats| && stats[i].totalTimeInForeground > 0 {
      var i :| 0 <= i < |stats| && stats[i].totalTimeInForeground > 0;
      UsageByNameValue(stats, nameOf, nameOf(stats[i].packageName));
    } else if UsageByName(stats, nameOf).values != map[] {
      var appName :| appName in UsageByName(stats, nameOf).values;
      UsageByNameValue(stats, nameOf, appName);
    }
  }

  // ---------------------------------------------------------------------------
  // Ranking: `entries.sortedByDescending { it.value }.take(5)`

  /** One row of the most-used list: usage in whole minutes, the name doubling as package. */
  datatype AppUsage = AppUsage(appName: string, packageName: string, usageTime: int)

  function ToAppUsage(e: Entry): AppUsage {
    AppUsage(e.0, e.0, TruncDiv(e.1, MillisPerMinute))
  }

  /** The map's entries, most time first. */
  function Ranked(m: LinkedMap<string, int>): (r: seq<Entry>)
    requires m.Valid()
    ensures NonIncreasing(r) && multiset(r) == multiset(m.Entries())
    ensures |r| == |m.keys|
  {
    var r := SortByDescending(m.Entries());
    SortByDescendingSorted(m.Entries());
    SortByDescendingPermutes(m.Entries());
    assert |multiset(r)| == |multiset(m.Entries())|;
    r
  }

  /** The first five ranked entries, as app usages. */
  function TopApps(m: LinkedMap<string, int>): (r: seq<AppUsage>)
    requires m.Valid()
    ensures |r| == if |m.keys| <= TopAppCount then |m.keys| else TopAppCount
    ensures forall i :: 0 <= i < |r| ==> r[i] == ToAppUsage(Ranked(m)[i])
  {
    var ranked := Ranked(m);
    var n := if |ranked| <= TopAppCount then |ranked| else TopAppCount;
    seq(n, i requires 0 <= i < n => ToAppUsage(ranked[i]))
  }

  /** A ranked entry is an entry of the map. */
  lemma RankedEntry(m: LinkedMap<string, int>, i: int)
    requires m.Valid() && 0 <= i < |m.keys|
    ensures Ranked(m)[i].0 in m.values && m.values[Ranked(m)[i].0] == Ranked(m)[i].1
  {
    assert Ranked(m)[i] in multiset(m.Entries());
    var j :| 0 <= j < |m.Entries()| && m.Entries()[j] == Ranked(m)[i];
  }

  /** Each row is a map entry, its time in whole minutes, the name doubling as package. */
  lemma TopAppsEntries(m: LinkedMap<string, int>)
    requires m.Valid()
    ensures forall i :: 0 <= i < |TopApps(m)| ==>
              && TopApps(m)[i].appName in m.values
              && TopApps(m)[i].packageName == TopApps(m)[i].appName
              && TopApps(m)[i].usageTime == TruncDiv(m.values[TopApps(m)[i].appName], MillisPerMinute)
  {
    forall i | 0 <= i < |TopApps(m)|
      ensures TopApps(m)[i].appName in m.values
      ensures TopApps(m)[i].usageTime == TruncDiv(m.values[TopApps(m)[i].appName], MillisPerMinute)
    {
      RankedEntry(m, i);
    }
  }

  /** Rows come in non-increasing usage. */
  lemma TopAppsOrdered(m: LinkedMap<string, int>)
    requires m.Valid()
    ensures forall i, j :: 0 <= i < j < |TopApps(m)| ==> TopApps(m)[j].usageTime <= TopApps(m)[i].usageTime
  {
    var ranked := Ranked(m);
    forall i, j | 0 <= i < j < |TopApps(m)|
      ensures TopApps(m)[j].usageTime <= TopApps(m)[i].usageTime
    {
      TruncDivMonotonic(ranked[j].1, ranked[i].1, MillisPerMinute);
    }
  }

  /** Every map entry has a place in the ranking. */
  lemma RankedPosition(m: LinkedMap<string, int>, name: string) returns (p: nat)
    requires m.Valid() && name in m.values
    ensures p < |m.keys| && Ranked(m)[p] == (name, m.values[name])
  {
    var k :| 0 <= k < |m.keys| && m.keys[k] == name;
    assert m.Entries()[k] == (name, m.values[name]);
    assert (name, m.values[name]) in multiset(Ranked(m));
    p :| 0 <= p < |Ranked(m)| && Ranked(m)[p] == (name, m.values[name]);
  }

  /** An app left off the list has no more time than any app on it. */
  lemma TopAppsLeftOut(m: LinkedMap<string, int>, name: string)
    requires m.Valid() && name in m.values
    requires forall j :: 0 <= j < |TopApps(m)| ==> TopApps(m)[j].appName != name
    ensures forall i :: 0 <= i < |TopApps(m)| ==>
              TopApps(m)[i].appName in m.values && m.values[name] <= m.values[TopApps(m)[i].appName]
  {
    var top := TopApps(m);
    var p := RankedPosition(m, name);
    assert forall j :: 0 <= j < |top| ==> Ranked(m)[j].0 != name by {
      forall j | 0 <= j < |top| ensures Ranked(m)[j].0 != name {
        assert top[j] == ToAppUsage(Ranked(m)[j]);
      }
    }
    forall i | 0 <= i < |top|
      ensures top[i].appName in m.values && m.values[name] <= m.values[top[i].appName]
    {
      RankedEntry(m, i);
    }
  }

  /** The list is empty exactly when the map is. */
  lemma TopAppsEmpty(m: LinkedMap<string, int>)
    requires m.Valid()
    ensures TopApps(m) == [] <==> m.values == map[]
  {
    assert m.Size() == |m.keys|;
  }

  // ---------------------------------------------------------------------------
  // The summary shown on the screen

  datatype ScreenTimeData = ScreenTimeData(
    totalScreenTime: int,
    dailyAverage: int,
    weeklyTotal: int,
    mostUsedApps: seq<AppUsage>,
    usageByDay: map<string, int>)

  /** createFallbackData. */
  const FallbackData: ScreenTimeData :=
    ScreenTimeData(
      420, 480, 3360,
      [ AppUsage("ClariMind", "com.example.clarimind", 120),
        AppUsage("Chrome", "com.android.chrome", 180),
        AppUsage("Settings", "com.android.settings", 90),
        AppUsage("System UI", "com.android.systemui", 60),
        AppUsage("Messages", "com.google.android.apps.messaging", 30) ],
      map["Monday" := 420, "Tuesday" := 380, "Wednesday" := 450, "Thursday" := 400,
          "Friday" := 480, "Saturday" := 520, "Sunday" := 290])

  /**
   * processUsageStats as a value, over a naming function (the screen passes
   * DisplayName). `usageByDay` (the calendar breakdown with its random filler)
   * is an input.
   */
  function Summary(todayStats: seq<UsageStatsData>, weeklyStats: seq<UsageStatsData>, usageByDay: map<string, int>,
                   nameOf: string -> string): ScreenTimeData
  {
    var totalScreenTime := TotalScreenTime(todayStats);
    var mostUsedApps := TopApps(UsageByName(todayStats, nameOf));
    if totalScreenTime == 0 && mostUsedApps == [] then FallbackData
    else ScreenTimeData(totalScreenTime, DailyAverage(todayStats, weeklyStats), WeeklyTotal(weeklyStats), mostUsedApps, usageByDay)
  }

  /**
   * The fixed data set is shown exactly when today's total is under a minute
   * and no stat has positive time; otherwise the computed values are.
   */
  lemma SummaryFallback(todayStats: seq<UsageStatsData>, weeklyStats: seq<UsageStatsData>, usageByDay: map<string, int>,
                        nameOf: string -> string)
    ensures var noData := TotalScreenTime(todayStats) == 0
                          && forall i :: 0 <= i < |todayStats| ==> todayStats[i].totalTimeInForeground <= 0;
            && (noData ==> Summary(todayStats, weeklyStats, usageByDay, nameOf) == FallbackData)
            && (!noData ==> Summary(todayStats, weeklyStats, usageByDay, nameOf)
                            == ScreenTimeData(TotalScreenTime(todayStats), DailyAverage(todayStats, weeklyStats),
                                              WeeklyTotal(weeklyStats), TopApps(UsageByName(todayStats, nameOf)), usageByDay))
  {
    UsageByNameEmpty(todayStats, nameOf);
    TopAppsEmpty(UsageByName(todayStats, nameOf));
  }

  // ---------------------------------------------------------------------------
  // loadScreenTimeData

  /**
   * `effectiveTodayStats`: when the event loop recorded anything, its map merged
   * with the platform's stats and stamped with the window; otherwise the
   * platform's stats as they are.
   */
  function EffectiveStats(appUsageMap: LinkedMap<string, int>, todayStats: seq<UsageStatsData>, startTime: int, endTime: int)
    : seq<UsageStatsData>
    requires appUsageMap.Valid()
  {
    if appUsageMap.values != map[] then StampedStats(MergeAll(appUsageMap, todayStats), startTime, endTime)
    else todayStats
  }

  /** The choice between the two sources of today's stats, with the merge loop. */
  method CombineStats(appUsageMap: LinkedMap<string, int>, todayStats: seq<UsageStatsData>, startTime: int, endTime: int)
    returns (effectiveTodayStats: seq<UsageStatsData>)
    requires appUsageMap.Valid()
    ensures effectiveTodayStats == EffectiveStats(appUsageMap, todayStats, startTime, endTime)
  {
    if appUsageMap.values != map[] {
      var combinedMap := MergeWithStats(appUsageMap, todayStats);
      effectiveTodayStats := StampedStats(combinedMap, startTime, endTime);
    } else {
      effectiveTodayStats := todayStats;
    }
  }

  /**
   * What a successful load shows. The platform's answers (the event stream,
   * today's and the week's stats, the clock reading `endTime` and the calendar
   * breakdown) are inputs.
   */
  function LoadedData(events: seq<UsageEvent>, endTime: int, todayStats: seq<UsageStatsData>,
                      weeklyStats: seq<UsageStatsData>, usageByDay: map<string, int>, nameOf: string -> string)
    : ScreenTimeData
  {
    var effective := EffectiveStats(EventUsage(events, endTime), todayStats, endTime - MillisPerDay, endTime);
    Summary(effective, weeklyStats, usageByDay, nameOf)
  }

  /** The stamped stats carry the map's values, in map order. */
  lemma StampedTimes(m: LinkedMap<string, int>, startTime: int, endTime: int)
    requires m.Valid()
    ensures Times(StampedStats(m, startTime, endTime)) == ValueList(m)
  {
  }

  /**
   * When the platform reports no positive time and the events are in time
   * order within the last 24 hours, today's total is at most a day: 1440
   * minutes.
   */
  lemma LoadedTotalAtMostADay(events: seq<UsageEvent>, endTime: int, todayStats: seq<UsageStatsData>)
    requires Chronological(events, endTime - MillisPerDay) && Clock(events, endTime - MillisPerDay) <= endTime
    requires forall i :: 0 <= i < |todayStats| ==> todayStats[i].totalTimeInForeground <= 0
    ensures TotalScreenTime(EffectiveStats(EventUsage(events, endTime), todayStats, endTime - MillisPerDay, endTime)) <= 1440
  {
    var startTime := endTime - MillisPerDay;
    var usage := EventUsage(events, endTime);
    var effective := EffectiveStats(usage, todayStats, startTime, endTime);
    if usage.values != map[] {
      MergeWithoutPositiveStats(usage, todayStats);
      StampedTimes(usage, startTime, endTime);
      EventUsageWithinWindow(events, startTime, endTime);
      assert SeqSum(Times(effective)) <= MillisPerDay;
    } else {
      SeqSumNonPositive(Times(todayStats));
    }
    TruncDivMonotonic(SeqSum(Times(effective)), MillisPerDay, MillisPerMinute);
  }

  /** The screen-time state: ScreenTimeUiState held by the view model. */
  class ScreenTimeViewModel {
    var screenTimeData: Option<ScreenTimeData>
    var isLoading: bool
    var error: Option<string>
    var hasPermission: bool
    /** getAppDisplayName: the naming the view model applies (DisplayName). */
    const appDisplayName: string -> string

    constructor()
      ensures screenTimeData == None && !isLoading && error == None && !hasPermission
      ensures appDisplayName == DisplayName
    {
      screenTimeData := None;
      isLoading := false;
      error := None;
      hasPermission := false;
      appDisplayName := DisplayName;
    }

    /** checkPermission: records the answer (an input) and starts a load when granted. */
    method CheckPermission(granted: bool)
      modifies this
      ensures hasPermission == granted && screenTimeData == old(screenTimeData)
      ensures granted ==> isLoading && error == None
      ensures !granted ==> isLoading == old(isLoading) && error == old(error)
    {
      hasPermission := granted;
      if granted {
        BeginLoad();
      }
    }

    /** The synchronous start of loadScreenTimeData. */
    method BeginLoad()
      modifies this
      ensures isLoading && error == None
      ensures screenTimeData == old(screenTimeData) && hasPermission == old(hasPermission)
    {
      isLoading := true;
      error := None;
    }

    /** processUsageStats: totals, the per-name loop, the ranking, and the fallback. */
    method ProcessUsageStats(todayStats: seq<UsageStatsData>, weeklyStats: seq<UsageStatsData>, usageByDay: map<string, int>)
      returns (data: ScreenTimeData)
      ensures data == Summary(todayStats, weeklyStats, usageByDay, appDisplayName)
    {
      var totalScreenTime := TotalScreenTime(todayStats);
      var dailyAverage := DailyAverage(todayStats, weeklyStats);
      var weeklyTotal := WeeklyTotal(weeklyStats);
      var appUsageMap := AggregateByName(todayStats, appDisplayName);
      var mostUsedApps := TopApps(appUsageMap);
      if totalScreenTime == 0 && mostUsedApps == [] {
        return FallbackData;
      }
      data := ScreenTimeData(totalScreenTime, dailyAverage, weeklyTotal, mostUsedApps, usageByDay);
    }

    /** The coroutine's success path: the event loop, the merge, and processUsageStats. */
    method CompleteLoad(events: seq<UsageEvent>, endTime: int, todayStats: seq<UsageStatsData>,
                        weeklyStats: seq<UsageStatsData>, usageByDay: map<string, int>)
      modifies this
      ensures screenTimeData == Some(LoadedData(events, endTime, todayStats, weeklyStats, usageByDay, appDisplayName))
      ensures !isLoading && error == old(error) && hasPermission == old(hasPermission)
    {
      var startTime := endTime - MillisPerDay;
      var appUsageMap := AggregateEvents(events, endTime);
      var effectiveTodayStats := CombineStats(appUsageMap, todayStats, startTime, endTime);
      var data := ProcessUsageStats(effectiveTodayStats, weeklyStats, usageByDay);
      screenTimeData := Some(data);
      isLoading := false;
    }

    /** The coroutine's failure path, with the exception's message as an input. */
    method FailLoad(message: string)
      modifies this
      ensures !isLoading && error == Some("Failed to load screen time data: " + message)
      ensures screenTimeData == old(screenTimeData) && hasPermission == old(hasPermission)
    {
      isLoading := false;
      error := Some("Failed to load screen time data: " + message);
    }

    method ClearError()
      modifies this
      ensures error == None
      ensures screenTimeData == old(screenTimeData) && isLoading == old(isLoading) && hasPermission == old(hasPermission)
    {
      error := None;
    }
  }
}
