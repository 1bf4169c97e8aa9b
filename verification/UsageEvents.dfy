/**
 * The event loop of loadScreenTimeData (ScreenTimeViewModel.kt): a fold over
 * the day's usage events that credits foreground time to packages, and the
 * bound that keeps the credited time inside the queried window.
 */
module UsageEvents {
  import opened Wrappers
  import opened Sums
  import opened LinkedMaps

  // ---------------------------------------------------------------------------
  // Usage events

  /**
   * The `when` branches of the event loop. The platform's constants make
   * ACTIVITY_RESUMED equal to MOVE_TO_FOREGROUND (1) and ACTIVITY_PAUSED equal
   * to MOVE_TO_BACKGROUND (2), so the first matching branch always wins.
   */
  datatype EventKind = MoveToForeground | MoveToBackground | ActivityResumed | ActivityPaused | Unhandled

  const MoveToForegroundCode: int := 1
  const MoveToBackgroundCode: int := 2
  const ActivityResumedCode: int := 1
  const ActivityPausedCode: int := 2

  /** The branch of the `when (eventType)` an event code selects. */
  function KindOf(eventType: int): EventKind {
    if eventType == MoveToForegroundCode then MoveToForeground
    else if eventType == MoveToBackgroundCode then MoveToBackground
    else if eventType == ActivityResumedCode then ActivityResumed
    else if eventType == ActivityPausedCode then ActivityPaused
    else Unhandled
  }

  /** The resumed and paused branches are shadowed by the foreground and background ones. */
  lemma ResumedAndPausedAreShadowed(eventType: int)
    ensures KindOf(eventType) != ActivityResumed && KindOf(eventType) != ActivityPaused
    ensures KindOf(ActivityResumedCode) == MoveToForeground && KindOf(ActivityPausedCode) == MoveToBackground
  {
  }

  datatype UsageEvent = UsageEvent(packageName: string, timeStamp: int, eventType: int)

  /** The loop's locals: the usage map, the app in front, and when it came to front. */
  datatype Tracker = Tracker(appUsageMap: LinkedMap<string, int>, currentApp: Option<string>, currentAppStartTime: int)

  const InitialTracker: Tracker := Tracker(Empty(), None, 0)

  /** `appUsageMap[app] = (appUsageMap[app] ?: 0L) + duration`, only for a positive duration. */
  function Credit(usage: LinkedMap<string, int>, app: string, duration: int): (r: LinkedMap<string, int>)
    requires usage.Valid()
    ensures r.Valid()
  {
    if duration > 0 then usage.Put(app, usage.Get(app).GetOr(0) + duration) else usage
  }

  /** One branch of the loop body, for an event of the given kind. */
  function StepKind(t: Tracker, kind: EventKind, packageName: string, timeStamp: int): (r: Tracker)
    requires t.appUsageMap.Valid()
    ensures r.appUsageMap.Valid()
  {
    match kind
    case MoveToForeground | ActivityResumed =>
      var usage :=
        if t.currentApp.Some? && t.currentAppStartTime > 0
        then Credit(t.appUsageMap, t.currentApp.value, timeStamp - t.currentAppStartTime)
        else t.appUsageMap;
      Tracker(usage, Some(packageName), timeStamp)
    case MoveToBackground =>
      var usage :=
        if t.currentApp == Some(packageName) && t.currentAppStartTime > 0
        then Credit(t.appUsageMap, packageName, timeStamp - t.currentAppStartTime)
        else t.appUsageMap;
      Tracker(usage, None, 0)
    case ActivityPaused =>
      var usage :=
        if t.currentApp == Some(packageName) && t.currentAppStartTime > 0
        then Credit(t.appUsageMap, packageName, timeStamp - t.currentAppStartTime)
        else t.appUsageMap;
      Tracker(usage, t.currentApp, t.currentAppStartTime)
    case Unhandled => t
  }

  function Step(t: Tracker, e: UsageEvent): (r: Tracker)
    requires t.appUsageMap.Valid()
    ensures r.appUsageMap.Valid()
  {
    StepKind(t, KindOf(e.eventType), e.packageName, e.timeStamp)
  }

  /** The loop's state after the given events, in order. */
  function FoldEvents(events: seq<UsageEvent>): (t: Tracker)
    ensures t.appUsageMap.Valid()
  {
    if events == [] then InitialTracker
    else Step(FoldEvents(events[..|events| - 1]), events[|events| - 1])
  }

  /** After the loop: the app still in front is credited up to `endTime`. */
  function Finish(t: Tracker, endTime: int): (usage: LinkedMap<string, int>)
    requires t.appUsageMap.Valid()
    ensures usage.Valid()
  {
    if t.currentApp.Some? && t.currentAppStartTime > 0
    then Credit(t.appUsageMap, t.currentApp.value, endTime - t.currentAppStartTime)
    else t.appUsageMap
  }

  /** The usage map built from the day's events, ending at `endTime`. */
  function EventUsage(events: seq<UsageEvent>, endTime: int): (usage: LinkedMap<string, int>)
    ensures usage.Valid()
  {
    Finish(FoldEvents(events), endTime)
  }

  /** Credits the app in front (if any, with a positive start) with its time up to `now`. */
  method CreditRunning(usage: LinkedMap<string, int>, app: Option<string>, startTime: int, now: int)
    returns (appUsageMap: LinkedMap<string, int>)
    requires usage.Valid()
    ensures appUsageMap == Finish(Tracker(usage, app, startTime), now)
  {
    appUsageMap := usage;
    if app.Some? && startTime > 0 {
      var duration := now - startTime;
      if duration > 0 {
        appUsageMap := appUsageMap.Put(app.value, appUsageMap.Get(app.value).GetOr(0) + duration);
      }
    }
  }

  /** The MOVE_TO_FOREGROUND branch: credit the app in front, then track the new one. */
  method OnForeground(usage: LinkedMap<string, int>, app: Option<string>, startTime: int, packageName: string, timeStamp: int)
    returns (appUsageMap: LinkedMap<string, int>, currentApp: Option<string>, currentAppStartTime: int)
    requires usage.Valid()
    ensures Tracker(appUsageMap, currentApp, currentAppStartTime)
            == StepKind(Tracker(usage, app, startTime), MoveToForeground, packageName, timeStamp)
  {
    appUsageMap := CreditRunning(usage, app, startTime, timeStamp);
    currentApp := Some(packageName);
    currentAppStartTime := timeStamp;
  }

  /** The MOVE_TO_BACKGROUND branch: credit the app if it is the one in front, then track none. */
  method OnBackground(usage: LinkedMap<string, int>, app: Option<string>, startTime: int, packageName: string, timeStamp: int)
    returns (appUsageMap: LinkedMap<string, int>, currentApp: Option<string>, currentAppStartTime: int)
    requires usage.Valid()
    ensures Tracker(appUsageMap, currentApp, currentAppStartTime)
            == StepKind(Tracker(usage, app, startTime), MoveToBackground, packageName, timeStamp)
  {
    appUsageMap := usage;
    if app == Some(packageName) && startTime > 0 {
      var duration := timeStamp - startTime;
      if duration > 0 {
        appUsageMap := appUsageMap.Put(packageName, appUsageMap.Get(packageName).GetOr(0) + duration);
      }
      assert appUsageMap == Credit(usage, packageName, duration);
    }
    currentApp := None;
    currentAppStartTime := 0;
  }

  /** The body of the event loop: the `when (eventType)` on one event. */
  method HandleEvent(usage: LinkedMap<string, int>, app: Option<string>, startTime: int, event: UsageEvent)
    returns (appUsageMap: LinkedMap<string, int>, currentApp: Option<string>, currentAppStartTime: int)
    requires usage.Valid()
    ensures Tracker(appUsageMap, currentApp, currentAppStartTime) == Step(Tracker(usage, app, startTime), event)
  {
    match KindOf(event.eventType) {
      case MoveToForeground =>
        appUsageMap, currentApp, currentAppStartTime := OnForeground(usage, app, startTime, event.packageName, event.timeStamp);
      case MoveToBackground =>
        appUsageMap, currentApp, currentAppStartTime := OnBackground(usage, app, startTime, event.packageName, event.timeStamp);
      case _ =>
        // Other codes are ignored; the resumed and paused branches are
        // shadowed by the two above.
        ResumedAndPausedAreShadowed(event.eventType);
        appUsageMap, currentApp, currentAppStartTime := usage, app, startTime;
    }
  }

  /** The event loop of loadScreenTimeData, with the final credit after it. */
  method AggregateEvents(events: seq<UsageEvent>, endTime: int) returns (appUsageMap: LinkedMap<string, int>)
    ensures appUsageMap == EventUsage(events, endTime)
  {
    appUsageMap := Empty();
    var currentApp: Option<string> := None;
    var currentAppStartTime := 0;
    for i := 0 to |events|
      invariant appUsageMap.Valid()
      invariant Tracker(appUsageMap, currentApp, currentAppStartTime) == FoldEvents(events[..i])
    {
      appUsageMap, currentApp, currentAppStartTime := HandleEvent(appUsageMap, currentApp, currentAppStartTime, events[i]);
      assert events[..i + 1][..i] == events[..i];
    }
    assert events[..|events|] == events;
    appUsageMap := CreditRunning(appUsageMap, currentApp, currentAppStartTime, endTime);
  }

  /** Every value in the map is strictly positive. */
  ghost predicate AllPositive(m: LinkedMap<string, int>) {
    forall k :: k in m.values ==> m.values[k] > 0
  }

  lemma CreditKeepsPositive(usage: LinkedMap<string, int>, app: string, duration: int)
    requires usage.Valid() && AllPositive(usage)
    ensures AllPositive(Credit(usage, app, duration))
  {
  }

  /** Only positive durations are credited, so every recorded usage is positive. */
  lemma {:induction false} EventUsagePositive(events: seq<UsageEvent>, endTime: int)
    ensures AllPositive(FoldEvents(events).appUsageMap)
    ensures AllPositive(EventUsage(events, endTime))
  {
    if events != [] {
      var prefix := events[..|events| - 1];
      EventUsagePositive(prefix, endTime);
      var t := FoldEvents(prefix);
      var e := events[|events| - 1];
      if t.currentApp.Some? {
        CreditKeepsPositive(t.appUsageMap, t.currentApp.value, e.timeStamp - t.currentAppStartTime);
      }
      CreditKeepsPositive(t.appUsageMap, e.packageName, e.timeStamp - t.currentAppStartTime);
    }
    var t := FoldEvents(events);
    if t.currentApp.Some? {
      CreditKeepsPositive(t.appUsageMap, t.currentApp.value, endTime - t.currentAppStartTime);
    }
  }

  // ---------------------------------------------------------------------------
  // Credited time never exceeds the queried window

  /** The sum of all recorded usage. */
  function Total(m: LinkedMap<string, int>): int
    requires m.Valid()
  {
    SeqSum(ValueList(m))
  }

  /** Writing v under k replaces k's old value (or 0) in the total by v. */
  lemma PutTotal(m: LinkedMap<string, int>, k: string, v: int)
    requires m.Valid()
    ensures Total(m.Put(k, v)) == Total(m) - m.Get(k).GetOr(0) + v
  {
    PutValueList(m, k, v);
    if k in m.values {
      var i :| 0 <= i < |m.keys| && m.keys[i] == k && ValueList(m.Put(k, v)) == ValueList(m)[i := v];
      SeqSumUpdate(ValueList(m), i, v);
    } else {
      SeqSumAppend(ValueList(m), [v]);
      assert [v][..0] == [];
    }
  }

  /** Crediting a positive duration adds exactly that duration to the total. */
  lemma CreditTotal(usage: LinkedMap<string, int>, app: string, duration: int)
    requires usage.Valid()
    ensures Total(Credit(usage, app, duration)) == Total(usage) + (if duration > 0 then duration else 0)
  {
    if duration > 0 {
      assert Credit(usage, app, duration) == usage.Put(app, usage.Get(app).GetOr(0) + duration);
      PutTotal(usage, app, usage.Get(app).GetOr(0) + duration);
    }
  }

  /** The time the tracker has accounted for: the running app's start, or else the clock. */
  function Mark(t: Tracker, clock: int): int {
    if t.currentApp.Some? && t.currentAppStartTime > 0 then t.currentAppStartTime else clock
  }

  /** Everything credited so far fits between the window start and the mark. */
  ghost predicate WithinWindow(t: Tracker, clock: int, windowStart: int) {
    && t.appUsageMap.Valid()
    && Total(t.appUsageMap) <= Mark(t, clock) - windowStart
    && Mark(t, clock) <= clock
  }

  /** Events in time order, none before the window start. */
  ghost predicate Chronological(events: seq<UsageEvent>, windowStart: int) {
    && (forall i :: 0 <= i < |events| ==> windowStart <= events[i].timeStamp)
    && (forall i, j :: 0 <= i < j < |events| ==> events[i].timeStamp <= events[j].timeStamp)
  }

  /** The clock after the given events: the last time stamp, or the window start. */
  function Clock(events: seq<UsageEvent>, windowStart: int): int {
    if events == [] then windowStart else events[|events| - 1].timeStamp
  }

  /** One event keeps the bound, for every kind the event codes can select. */
  lemma StepWithinWindow(t: Tracker, e: UsageEvent, clock: int, windowStart: int)
    requires WithinWindow(t, clock, windowStart)
    requires clock <= e.timeStamp
    ensures WithinWindow(Step(t, e), e.timeStamp, windowStart)
  {
    ResumedAndPausedAreShadowed(e.eventType);
    var kind := KindOf(e.eventType);
    if kind == MoveToForeground {
      ForegroundWithinWindow(t, e.packageName, e.timeStamp, clock, windowStart);
    } else if kind == MoveToBackground {
      BackgroundWithinWindow(t, e.packageName, e.timeStamp, clock, windowStart);
    }
  }

  lemma ForegroundWithinWindow(t: Tracker, packageName: string, timeStamp: int, clock: int, windowStart: int)
    requires WithinWindow(t, clock, windowStart) && clock <= timeStamp
    ensures WithinWindow(StepKind(t, MoveToForeground, packageName, timeStamp), timeStamp, windowStart)
  {
    if t.currentApp.Some? && t.currentAppStartTime > 0 {
      CreditTotal(t.appUsageMap, t.currentApp.value, timeStamp - t.currentAppStartTime);
    }
  }

  lemma BackgroundWithinWindow(t: Tracker, packageName: string, timeStamp: int, clock: int, windowStart: int)
    requires WithinWindow(t, clock, windowStart) && clock <= timeStamp
    ensures WithinWindow(StepKind(t, MoveToBackground, packageName, timeStamp), timeStamp, windowStart)
  {
    if t.currentApp == Some(packageName) && t.currentAppStartTime > 0 {
      CreditTotal(t.appUsageMap, packageName, timeStamp - t.currentAppStartTime);
    }
  }

  lemma {:induction false} FoldWithinWindow(events: seq<UsageEvent>, windowStart: int)
    requires Chronological(events, windowStart)
    ensures WithinWindow(FoldEvents(events), Clock(events, windowStart), windowStart)
  {
    if events != [] {
      var prefix := events[..|events| - 1];
      assert Chronological(prefix, windowStart);
      FoldWithinWindow(prefix, windowStart);
      StepWithinWindow(FoldEvents(prefix), events[|events| - 1], Clock(prefix, windowStart), windowStart);
    } else {
      assert ValueList(InitialTracker.appUsageMap) == [];
    }
  }

  /**
   * For chronological events inside [windowStart, endTime], the total credited
   * by the event loop never exceeds endTime - windowStart: no millisecond is
   * counted twice. (loadScreenTimeData queries the last 24 hours.)
   */
  lemma EventUsageWithinWindow(events: seq<UsageEvent>, windowStart: int, endTime: int)
    requires Chronological(events, windowStart)
    requires Clock(events, windowStart) <= endTime
    ensures Total(EventUsage(events, endTime)) <= endTime - windowStart
  {
    FoldWithinWindow(events, windowStart);
    var t := FoldEvents(events);
    if t.currentApp.Some? {
      CreditTotal(t.appUsageMap, t.currentApp.value, endTime - t.currentAppStartTime);
    }
  }

  /**
   * The ACTIVITY_PAUSED branch, were its code distinct, credits the running
   * app without moving its start time: a later credit counts the same span
   * again, and the window bound above fails.
   */
  lemma PausedBranchWouldCountTwice()
    ensures var t := StepKind(StepKind(InitialTracker, MoveToForeground, "a", 100), ActivityPaused, "a", 200);
            t.appUsageMap.Valid() && Total(Finish(t, 200)) == 200 && 200 > 200 - 100
  {
    var t1 := StepKind(InitialTracker, MoveToForeground, "a", 100);
    assert t1 == Tracker(Empty(), Some("a"), 100);
    var t2 := StepKind(t1, ActivityPaused, "a", 200);
    assert t2.appUsageMap == LinkedMap(["a"], map["a" := 100]);
    assert ValueList(t2.appUsageMap) == [100];
    assert ValueList(Finish(t2, 200)) == [200];
    assert [200][..0] == [];
  }
}
