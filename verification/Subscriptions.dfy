/** Digest subscriptions: due check, revocation check, stamp, then run, per subscription and tick. */
module Subscriptions {
  import opened Basics
  import opened Models
  import opened Watermarks

  /** A row's stored watermark, every stamp that landed, and the digest runs started so far. */
  datatype Row = Row(lastRun: Option<int>, stamps: seq<int>, ran: seq<Span>)

  function Fresh(lastRun: Option<int>): Row {
    Row(lastRun, if lastRun.Some? then [lastRun.value] else [], [])
  }

  function Stamped(row: Row, now: int): Row {
    row.(lastRun := Some(now), stamps := row.stamps + [now])
  }

  function Started(row: Row, since: int, now: int): Row {
    row.(ran := row.ran + [Span(since, now)])
  }

  // ---------------------------------------------------------------- one undisturbed tick

  /** What a due subscription meets: a failing or revoked profile, a failing stamp (landed or not), or its run. */
  datatype Fate = ProfileFails | NotSubscribable | StampFails(landed: bool) | Runs

  datatype Tick = Tick(now: int, fate: Fate)

  /** `_run_one`, from the row it loaded to its end. */
  function RunOne(schedule: Schedule, row: Row, tick: Tick): Row {
    match row.lastRun
    case None => // baseline: next slot, never a replay
      if tick.fate == StampFails(false) then row else Stamped(row, tick.now)
    case Some(last) =>
      if !schedule.IsDue(tick.now, last) then row
      else match tick.fate
        case ProfileFails => row
        case NotSubscribable => row
        case StampFails(landed) => if landed then Stamped(row, tick.now) else row
        case Runs => Started(Stamped(row, tick.now), last, tick.now)
  }

  /** One subscription's stored row, as its scheduler updates it. */
  class Subscription {
    const schedule: Schedule
    var lastRun: Option<int>
    ghost var stamps: seq<int> // every stamp that landed
    ghost var ran: seq<Span>   // the digest runs started for it

    ghost function View(): Row
      reads this
    {
      Row(lastRun, stamps, ran)
    }

    constructor (schedule: Schedule, lastRun: Option<int>)
      ensures this.schedule == schedule && View() == Fresh(lastRun)
    {
      this.schedule, this.lastRun, ran := schedule, lastRun, [];
      stamps := Fresh(lastRun).stamps;
    }

    /** The stamp; `false` when the store raises. */
    method Stamp(now: int, fate: Fate) returns (ok: bool)
      modifies this
      ensures ok <==> !fate.StampFails?
      ensures View() == if fate == StampFails(false) then old(View()) else Stamped(old(View()), now)
    {
      ok := !fate.StampFails?;
      if fate != StampFails(false) {
        lastRun, stamps := Some(now), stamps + [now];
      }
    }

    /** The digest starts; nobody may start it before its stamp is stored. */
    method Digest(since: int, now: int)
      requires lastRun == Some(now)
      modifies this
      ensures View() == Started(old(View()), since, now)
    {
      ran := ran + [Span(since, now)];
    }

    method Serve(tick: Tick)
      modifies this
      ensures View() == RunOne(schedule, old(View()), tick)
    {
      if lastRun.None? {
        var _ := Stamp(tick.now, tick.fate);
        return;
      }
      var since := lastRun.value;
      if !schedule.IsDue(tick.now, since) || tick.fate.ProfileFails? || tick.fate.NotSubscribable? {
        return;
      }
      var stamped := Stamp(tick.now, tick.fate);
      if stamped {
        Digest(since, tick.now);
      }
    }
  }

  // ---------------------------------------------------------------- await by await

  /** Where the subscription's tick is suspended, with the stamp it loaded. */
  datatype Phase =
    | Idle
    | Loaded(since: Option<int>)
    | Asking(now: int, last: int)
    | Stamping(now: int, since: Option<int>, landed: bool)

  datatype State = State(row: Row, phase: Phase)

  datatype Step =
    | Load                  // `list_all` answers
    | Plan(now: int)        // the baseline and due checks
    | Answer(granted: bool) // the profile is subscribable, or it is not, is gone or cannot be read
    | Land                  // the stamp takes effect
    | Return                // the stamp is reported as done, and the digest starts if one is due
    | Raise                 // the stamp is reported as failed, landed or not
    | Stop                  // the process crashes

  /** A step that is not enabled leaves the state as it is. */
  function Apply(schedule: Schedule, st: State, a: Step): State {
    match a
    case Load => if st.phase.Idle? then st.(phase := Loaded(st.row.lastRun)) else st
    case Plan(now) =>
      if !st.phase.Loaded? then st
      else (match st.phase.since
        case None => st.(phase := Stamping(now, None, false))
        case Some(since) => st.(phase := if schedule.IsDue(now, since) then Asking(now, since) else Idle))
    case Answer(granted) =>
      if !st.phase.Asking? then st
      else st.(phase := if granted then Stamping(st.phase.now, Some(st.phase.last), false) else Idle)
    case Land =>
      if st.phase.Stamping? && !st.phase.landed
      then State(Stamped(st.row, st.phase.now), st.phase.(landed := true)) else st
    case Return =>
      if !(st.phase.Stamping? && st.phase.landed) then st
      else State(
        if st.phase.since.Some? then Started(st.row, st.phase.since.value, st.phase.now) else st.row,
        Idle)
    case Raise => if st.phase.Stamping? then st.(phase := Idle) else st
    case Stop => st.(phase := Idle)
  }

  function Run(schedule: Schedule, st: State, steps: seq<Step>): State
    decreases |steps|
  {
    if steps == [] then st else Run(schedule, Apply(schedule, st, steps[0]), steps[1..])
  }

  /** From a stored stamp, with nothing under way. */
  function RunFrom(schedule: Schedule, lastRun: Option<int>, steps: seq<Step>): State {
    Run(schedule, State(Fresh(lastRun), Idle), steps)
  }

  // ---------------------------------------------------------------- what every run keeps

  ghost predicate RowOk(schedule: Schedule, row: Row) {
    && Chained(row.ran, row.lastRun)
    && Recorded(row.stamps, row.ran, row.lastRun)
    && forall k :: 0 <= k < |row.ran| ==> schedule.IsDue(row.ran[k].at, row.ran[k].since)
  }

  ghost predicate PhaseOk(schedule: Schedule, st: State) {
    match st.phase
    case Idle => true
    case Loaded(since) => since == st.row.lastRun
    case Asking(now, since) => st.row.lastRun == Some(since) && schedule.IsDue(now, since)
    case Stamping(now, since, landed) =>
      && (since.Some? ==> schedule.IsDue(now, since.value))
      && if !landed then since == st.row.lastRun
         else st.row.lastRun == Some(now)
              && (since.Some? ==> Awaiting(st.row.stamps, st.row.ran, since.value, now))
  }

  ghost predicate Inv(schedule: Schedule, st: State) {
    RowOk(schedule, st.row) && PhaseOk(schedule, st)
  }

  lemma LandKeeps(schedule: Schedule, st: State)
    requires schedule.Valid() && Inv(schedule, st) && st.phase.Stamping? && !st.phase.landed
    ensures Inv(schedule, Apply(schedule, st, Land))
  {
    var row, now := st.row, st.phase.now;
    if st.phase.since.Some? {
      DueIsLater(schedule, now, st.phase.since.value);
      StampKeepsChain(row.ran, st.phase.since.value, now);
      StampAwaits(row.stamps, row.ran, st.phase.since.value, now);
    }
    RecordsStamp(row.stamps, row.ran, row.lastRun, now);
  }

  lemma InvStep(schedule: Schedule, st: State, a: Step)
    requires schedule.Valid() && Inv(schedule, st)
    ensures Inv(schedule, Apply(schedule, st, a))
  {
    if a.Land? && st.phase.Stamping? && !st.phase.landed {
      LandKeeps(schedule, st);
    } else if a.Return? && st.phase.Stamping? && st.phase.landed && st.phase.since.Some? {
      AwaitedStarts(st.row.stamps, st.row.ran, st.phase.since.value, st.phase.now);
    }
  }

  lemma {:induction false} InvRun(schedule: Schedule, st: State, steps: seq<Step>)
    requires schedule.Valid() && Inv(schedule, st)
    ensures Inv(schedule, Run(schedule, st, steps))
    decreases |steps|
  {
    if steps != [] {
      InvStep(schedule, st, steps[0]);
      InvRun(schedule, Apply(schedule, st, steps[0]), steps[1..]);
    }
  }

  // ---------------------------------------------------------------- the promises

  /**
   No digest precedes its stamp: at the step that starts one, in any history, the stored watermark
   already is its stamp, the digest is new, and it is handed the stamp that landed just before.
   */
  lemma StampPrecedesDigest(schedule: Schedule, lastRun: Option<int>, steps: seq<Step>, next: Step)
    requires schedule.Valid()
    requires var st := RunFrom(schedule, lastRun, steps); Apply(schedule, st, next).row.ran != st.row.ran
    ensures var row := RunFrom(schedule, lastRun, steps).row;
      && |row.stamps| >= 2
      && var span := RunOf(row.stamps, |row.stamps| - 2);
      && row.lastRun == Some(span.at) && span !in row.ran
      && Apply(schedule, RunFrom(schedule, lastRun, steps), next).row == row.(ran := row.ran + [span])
  {
    var st := RunFrom(schedule, lastRun, steps);
    InvRun(schedule, State(Fresh(lastRun), Idle), steps);
    assert st.phase.Stamping? && st.phase.landed && st.phase.since.Some?;
    AwaitedStarts(st.row.stamps, st.row.ran, st.phase.since.value, st.phase.now);
  }

  /** Over every history of failures, each archived message enters at most one digest, and a slot sends at most one. */
  lemma DigestsNeverOverlap(schedule: Schedule, lastRun: Option<int>, steps: seq<Step>, i: nat, j: nat, t: int)
    requires schedule.Valid()
    requires i < j < |RunFrom(schedule, lastRun, steps).row.ran|
    ensures var ran := RunFrom(schedule, lastRun, steps).row.ran;
      && !(InWindow(ran[i], t) && InWindow(ran[j], t))
      && (schedule.kind != Every ==> schedule.LatestSlot(ran[i].at) < schedule.LatestSlot(ran[j].at))
  {
    var row := RunFrom(schedule, lastRun, steps).row;
    InvRun(schedule, State(Fresh(lastRun), Idle), steps);
    WindowsDisjoint(row.ran, row.lastRun, i, j, t);
    if schedule.kind != Every {
      LatestSlotIsGreatest(schedule, row.ran[i].at, 0);
    }
  }

  /**
   Over every history of failures: the digests tile the archive from the first stamp to the last
   exactly when every later stamp that landed started its digest and none came over 30 days late.
   */
  lemma DigestsTileExactly(schedule: Schedule, lastRun: Option<int>, steps: seq<Step>)
    requires schedule.Valid() && RunFrom(schedule, lastRun, steps).row.stamps != []
    ensures var row := RunFrom(schedule, lastRun, steps).row;
      (forall t :: Covered(row.ran, t) <==> row.stamps[0] <= t < row.stamps[|row.stamps| - 1])
      <==> NothingLost(row.stamps, row.ran)
  {
    var row := RunFrom(schedule, lastRun, steps).row;
    InvRun(schedule, State(Fresh(lastRun), Idle), steps);
    WindowsTileExactly(row.stamps, row.ran, row.lastRun);
  }

  // ---------------------------------------------------------------- undisturbed ticks as steps

  /** The steps of one tick that meets this fate. */
  function StepsOf(tick: Tick): seq<Step> {
    [Load, Plan(tick.now), Answer(!tick.fate.ProfileFails? && !tick.fate.NotSubscribable?),
     if tick.fate == StampFails(false) then Raise else Land, if tick.fate.StampFails? then Raise else Return]
  }

  lemma RunFive(schedule: Schedule, st: State, steps: seq<Step>)
    requires |steps| == 5
    ensures Run(schedule, st, steps)
      == Apply(schedule, Apply(schedule, Apply(schedule, Apply(schedule, Apply(schedule, st,
           steps[0]), steps[1]), steps[2]), steps[3]), steps[4])
  {
    assert steps[1..][1..] == steps[2..] && steps[2..][1..] == steps[3..];
    assert steps[3..][1..] == steps[4..] && steps[4..][1..] == [];
    var st1 := Apply(schedule, st, steps[0]);
    var st2 := Apply(schedule, st1, steps[1]);
    var st3 := Apply(schedule, st2, steps[2]);
    var st4 := Apply(schedule, st3, steps[3]);
    assert Run(schedule, st4, steps[4..]) == Run(schedule, Apply(schedule, st4, steps[4]), []);
    assert Run(schedule, st3, steps[3..]) == Run(schedule, st4, steps[4..]);
    assert Run(schedule, st2, steps[2..]) == Run(schedule, st3, steps[3..]);
    assert Run(schedule, st1, steps[1..]) == Run(schedule, st2, steps[2..]);
  }

  /** A tick that nothing interrupts does what `_run_one` does in one go. */
  lemma TickIsSteps(schedule: Schedule, row: Row, tick: Tick)
    ensures Run(schedule, State(row, Idle), StepsOf(tick)) == State(RunOne(schedule, row, tick), Idle)
  {
    RunFive(schedule, State(row, Idle), StepsOf(tick));
  }

  /** The whole interval, or a slot, has passed since the stamp. */
  ghost predicate TimeHasCome(schedule: Schedule, last: int, now: int) {
    if schedule.kind == Every then last + schedule.intervalHours * HOUR <= now
    else exists slot :: schedule.IsSlot(slot) && last < slot <= now
  }

  /**
   A digest whose time has come is sent, once, from the old stamp, and stamped; one whose time has
   not come is left alone; and a row seen for the first time is only stamped.
   */
  lemma DueDigestIsSent(schedule: Schedule, row: Row, now: int)
    requires schedule.Valid()
    ensures var after := Run(schedule, State(row, Idle), StepsOf(Tick(now, Runs)));
      && after.phase == Idle
      && after.row == match row.lastRun
         case None => Row(Some(now), row.stamps + [now], row.ran)
         case Some(last) =>
           if TimeHasCome(schedule, last, now) then Row(Some(now), row.stamps + [now], row.ran + [Span(last, now)])
           else row
  {
    TickIsSteps(schedule, row, Tick(now, Runs));
    if row.lastRun.Some? && schedule.kind != Every {
      DueExactlyWhenASlotPassed(schedule, now, row.lastRun.value);
    }
  }

  /** A tick whose stamp is reported as failed, landed or not, or that is stopped, stamps and sends nothing more. */
  lemma AbandonedTickSendsNothing(schedule: Schedule, st: State, a: Step, next: Step)
    requires a == Stop || (a == Raise && st.phase.Stamping?)
    ensures Apply(schedule, st, a) == st.(phase := Idle)
    ensures Apply(schedule, Apply(schedule, st, a), next).row == st.row
    ensures next != Load ==> Apply(schedule, Apply(schedule, st, a), next).phase == Idle
  {
  }

  /** A subscription's ticks do not overlap, and each begins with the stored stamp. */
  lemma OneTickAtATime(schedule: Schedule, st: State)
    ensures Apply(schedule, st, Load).row == st.row
    ensures Apply(schedule, st, Load).phase == if st.phase == Idle then Loaded(st.row.lastRun) else st.phase
  {
  }

  /** A scope whose profile cannot be read or no longer allows subscriptions is neither stamped nor sent to. */
  lemma RevokedIsLeftAlone(schedule: Schedule, row: Row, now: int, fate: Fate)
    requires row.lastRun.Some? && (fate.ProfileFails? || fate.NotSubscribable?)
    ensures Run(schedule, State(row, Idle), StepsOf(Tick(now, fate))) == State(row, Idle)
  {
    TickIsSteps(schedule, row, Tick(now, fate));
  }

  lemma {:induction false} RunSplit(schedule: Schedule, st: State, a: seq<Step>, b: seq<Step>)
    ensures Run(schedule, st, a + b) == Run(schedule, Run(schedule, st, a), b)
    decreases |a|
  {
    if a == [] {
      assert a + b == b;
    } else {
      assert (a + b)[1..] == a[1..] + b;
      RunSplit(schedule, Apply(schedule, st, a[0]), a[1..], b);
    }
  }

  /** A landed stamp whose write is reported as failed loses its digest: no later one reads that slice. */
  lemma LostStampLosesSlice()
    ensures var hourly := Schedule(Every, 1, 0, 0, 0);
      var one, two, three := Tick(HOUR, Runs), Tick(2 * HOUR, StampFails(true)), Tick(3 * HOUR, Runs);
      var steps := StepsOf(one) + StepsOf(two) + StepsOf(three);
      var ran := RunFrom(hourly, Some(0), steps).row.ran;
      ran == [Span(0, HOUR), Span(2 * HOUR, 3 * HOUR)] && !Covered(ran, HOUR)
  {
    var hourly := Schedule(Every, 1, 0, 0, 0);
    var one, two, three := Tick(HOUR, Runs), Tick(2 * HOUR, StampFails(true)), Tick(3 * HOUR, Runs);
    var row0 := Fresh(Some(0));
    var row1 := RunOne(hourly, row0, one);
    var row2 := RunOne(hourly, row1, two);
    TickIsSteps(hourly, row0, one);
    TickIsSteps(hourly, row1, two);
    TickIsSteps(hourly, row2, three);
    RunSplit(hourly, State(row0, Idle), StepsOf(one), StepsOf(two));
    RunSplit(hourly, State(row0, Idle), StepsOf(one) + StepsOf(two), StepsOf(three));
    assert RunOne(hourly, row2, three).ran == [Span(0, HOUR), Span(2 * HOUR, 3 * HOUR)];
  }
}
