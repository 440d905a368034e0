/** The pipeline configuration values, and the schedule arithmetic. */
module Models {
  import opened Basics

  // Instants are microseconds since Monday 0001-01-01T00:00Z, the first instant a datetime can name.
  const MINUTE := 60_000_000
  const HOUR := 60 * MINUTE
  const DAY := 24 * HOUR
  const WEEK := 7 * DAY

  datatype ScheduleKind = Every | Daily | Weekly

  datatype Schedule = Schedule(kind: ScheduleKind, intervalHours: int, hour: int, minute: int, weekday: int) {
    /** What construction accepts. */
    predicate Valid() {
      && (kind == Every ==> intervalHours > 0)
      && 0 <= hour < 24 && 0 <= minute < 60 && 0 <= weekday < 7
    }

    function TimeOfDay(): int {
      hour * HOUR + minute * MINUTE
    }

    function LatestSlot(now: int): int {
      var candidate := now - now % DAY + TimeOfDay();
      if kind == Daily then
        if candidate <= now then candidate else candidate - DAY
      else
        var back := (now / DAY % 7 - weekday) % 7;
        var onDay := candidate - back * DAY;
        if onDay <= now then onDay else onDay - WEEK
    }

    function IsDue(now: int, lastRun: int): bool {
      if kind == Every then now - lastRun >= intervalHours * HOUR
      else lastRun < LatestSlot(now) <= now
    }

    /** A moment this schedule names: its time of day, on its weekday when it has one. */
    ghost predicate IsSlot(t: int) {
      t % DAY == TimeOfDay() && (kind == Weekly ==> t / DAY % 7 == weekday)
    }
  }

  datatype StepSpec = StepSpec(name: string, params: seq<(string, string)>)

  datatype TriggerKind = OnCommand | OnSchedule

  datatype TriggerSpec = TriggerSpec(kind: TriggerKind, command: string, schedule: Option<Schedule>) {
    /** What construction accepts. */
    predicate Valid() {
      && (kind == OnCommand ==> command != "")
      && (kind == OnSchedule ==> schedule.Some?)
      && (schedule.Some? ==> schedule.value.Valid())
    }
  }

  datatype ActionSpec = ActionSpec(
    actionId: string,
    trigger: TriggerSpec,
    source: StepSpec,
    transforms: seq<StepSpec>,
    sinks: seq<StepSpec>,
    lastRun: Option<int>)

  // ---------------------------------------------------------------- slots

  lemma DailyLatest(s: Schedule, now: int)
    requires s.Valid() && s.kind == Daily
    ensures var day, rest, time := now / DAY, now % DAY, s.TimeOfDay();
      && now == day * DAY + rest
      && s.LatestSlot(now) == (if time <= rest then day else day - 1) * DAY + time
  {
  }

  lemma DailySlot(s: Schedule, now: int, t: int)
    requires s.Valid() && s.kind == Daily
    ensures var l := s.LatestSlot(now); s.IsSlot(l) && l <= now < l + DAY
    ensures s.IsSlot(t) && t <= now ==> t <= s.LatestSlot(now)
  {
    var day, rest, time := now / DAY, now % DAY, s.TimeOfDay();
    DailyLatest(s, now);
    DayParts(if time <= rest then day else day - 1, time);
    if s.IsSlot(t) && t <= now {
      assert t == t / DAY * DAY + time;
      DaysApart(t / DAY, day, time, rest);
    }
  }

  /** A time of day not after now is today's if that has come, and yesterday's or earlier if not. */
  lemma DaysApart(d: int, day: int, time: nat, rest: nat)
    requires time < DAY && rest < DAY && d * DAY + time <= day * DAY + rest
    ensures d <= (if time <= rest then day else day - 1)
    ensures d * DAY + time <= (if time <= rest then day else day - 1) * DAY + time
  {
  }

  lemma WeeklySlot(s: Schedule, now: int)
    requires s.Valid() && s.kind == Weekly
    ensures var l := s.LatestSlot(now); s.IsSlot(l) && l <= now < l + WEEK
  {
    var day, rest, time := now / DAY, now % DAY, s.TimeOfDay();
    var back := (day % 7 - s.weekday) % 7;
    WeeklyLatest(s, now);
    SameWeekday(day, s.weekday);
    BackToSlot(day, rest, back, time);
    DayParts(if time <= rest + back * DAY then day - back else day - back - 7, time);
  }

  lemma WeeklyLatest(s: Schedule, now: int)
    requires s.Valid() && s.kind == Weekly
    ensures var day, rest, time := now / DAY, now % DAY, s.TimeOfDay();
      var back := (day % 7 - s.weekday) % 7;
      && now == day * DAY + rest
      && s.LatestSlot(now) == (if time <= rest + back * DAY then day - back else day - back - 7) * DAY + time
  {
  }

  /** Going back to the weekday, and a week more when the time of day is still to come, stays within a week. */
  lemma BackToSlot(day: int, rest: nat, back: nat, time: nat)
    requires rest < DAY && time < DAY && back < 7
    ensures var now, onDay := day * DAY + rest, (day - back) * DAY + time;
      && (onDay <= now <==> time <= rest + back * DAY)
      && (onDay <= now ==> now < onDay + WEEK)
      && (onDay > now ==> onDay - WEEK <= now < onDay && onDay - WEEK == (day - back - 7) * DAY + time)
  {
  }

  lemma SameWeekday(day: int, weekday: nat)
    requires weekday < 7
    ensures var back := (day % 7 - weekday) % 7; (day - back) % 7 == weekday == (day - back - 7) % 7
  {
  }

  lemma DayParts(day: int, time: nat)
    requires time < DAY
    ensures (day * DAY + time) / DAY == day && (day * DAY + time) % DAY == time
  {
  }

  /** Slots of one weekday lie whole weeks apart. */
  lemma WeeklySlotsApart(s: Schedule, t: int, u: int)
    requires s.Valid() && s.kind == Weekly && s.IsSlot(t) && s.IsSlot(u) && t < u
    ensures t + WEEK <= u
  {
    assert u == u / DAY * DAY + s.TimeOfDay() && t == t / DAY * DAY + s.TimeOfDay();
    assert (u / DAY - t / DAY) % 7 == 0;
  }

  /** A slot, in numbers: that time of some day, and of a day of that weekday. */
  lemma SlotMeans(s: Schedule, t: int)
    requires s.Valid()
    ensures s.IsSlot(t) <==> exists day: int ::
      && t == 86_400_000_000 * day + 3_600_000_000 * s.hour + 60_000_000 * s.minute
      && (s.kind == Weekly ==> day % 7 == s.weekday)
  {
    if s.IsSlot(t) {
      var day := t / DAY;
      assert t == 86_400_000_000 * day + 3_600_000_000 * s.hour + 60_000_000 * s.minute;
    }
    if day: int :| t == 86_400_000_000 * day + 3_600_000_000 * s.hour + 60_000_000 * s.minute
                   && (s.kind == Weekly ==> day % 7 == s.weekday) {
      DayParts(day, s.TimeOfDay());
    }
  }

  /** The latest slot is a slot, is not after `now`, and no slot lies between it and `now`. */
  lemma LatestSlotIsGreatest(s: Schedule, now: int, t: int)
    requires s.Valid() && s.kind != Every
    ensures s.IsSlot(s.LatestSlot(now)) && s.LatestSlot(now) <= now
    ensures s.IsSlot(t) && t <= now ==> t <= s.LatestSlot(now)
  {
    if s.kind == Daily {
      DailySlot(s, now, t);
    } else {
      WeeklySlot(s, now);
      if s.IsSlot(t) && s.LatestSlot(now) < t <= now {
        WeeklySlotsApart(s, s.LatestSlot(now), t);
      }
    }
  }

  /** A daily or weekly run is owed exactly when a slot lies after the last run and not after `now`. */
  lemma DueExactlyWhenASlotPassed(s: Schedule, now: int, lastRun: int)
    requires s.Valid() && s.kind != Every
    ensures s.IsDue(now, lastRun) <==> exists t :: s.IsSlot(t) && lastRun < t <= now
  {
    LatestSlotIsGreatest(s, now, now);
    if t :| s.IsSlot(t) && lastRun < t <= now {
      LatestSlotIsGreatest(s, now, t);
    }
  }

  /** Nothing is owed before it can have come due: the last run lies strictly in the past. */
  lemma DueIsLater(s: Schedule, now: int, lastRun: int)
    requires s.Valid() && s.IsDue(now, lastRun)
    ensures lastRun < now
  {
  }
}
