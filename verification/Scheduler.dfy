/**
 The action scheduler: which of a scope's actions run this tick, stamped before they run, over
 whole histories of ticks that may crash or lose a write at any await.
 */
module Scheduler {
  import opened Basics
  import opened Models
  import opened Watermarks
  import Rotation

  /** The stable offset source: a hash of scope and action, and the width of the window it is reduced to. */
  datatype Jitter = Jitter(hash: (string, string) -> nat, windowSeconds: nat) {
    function Of(scope: string, spec: ActionSpec, schedule: Schedule): (offset: int)
      ensures 0 <= offset && (windowSeconds > 0 ==> offset < windowSeconds * 1_000_000)
      ensures schedule.kind == Every ==> offset == 0
    {
      if windowSeconds == 0 || schedule.kind == Every then 0
      else hash(scope, spec.actionId) % windowSeconds * 1_000_000
    }
  }

  predicate Schedulable(spec: ActionSpec) {
    spec.trigger.kind == OnSchedule && spec.trigger.schedule.Some?
  }

  /** One scope's tick: its jitter source, its key, the moment, and the cap on its runs. */
  datatype Context = Context(jitter: Jitter, scope: string, now: int, cap: nat)

  /** Owed at `now`, after this action's jitter. */
  predicate Owed(jitter: Jitter, scope: string, now: int, spec: ActionSpec) {
    && Schedulable(spec) && spec.lastRun.Some?
    && spec.trigger.schedule.value.IsDue(
         now - jitter.Of(scope, spec, spec.trigger.schedule.value), spec.lastRun.value)
  }

  predicate OwedIn(c: Context, spec: ActionSpec) {
    Owed(c.jitter, c.scope, c.now, spec)
  }

  /** How many of the first `n` actions are owed. */
  function OwedBefore(c: Context, actions: seq<ActionSpec>, n: nat): nat
    requires n <= |actions|
  {
    if n == 0 then 0
    else OwedBefore(c, actions, n - 1) + (if OwedIn(c, actions[n - 1]) then 1 else 0)
  }

  /** Owed and within the per-scope cap of this tick. */
  predicate Picked(c: Context, actions: seq<ActionSpec>, i: nat)
    requires i < |actions|
  {
    OwedIn(c, actions[i]) && OwedBefore(c, actions, i) < c.cap
  }

  /** Stamped this tick: picked, or seen for the first time. */
  predicate Stamped(c: Context, actions: seq<ActionSpec>, i: nat)
    requires i < |actions|
  {
    (Schedulable(actions[i]) && actions[i].lastRun.None?) || Picked(c, actions, i)
  }

  function StampedList(c: Context, actions: seq<ActionSpec>): seq<ActionSpec> {
    seq(|actions|, i requires 0 <= i < |actions| =>
      if Stamped(c, actions, i) then actions[i].(lastRun := Some(c.now)) else actions[i])
  }

  /** The indices of the first `n` actions that are picked, in order. */
  function PickedBefore(c: Context, actions: seq<ActionSpec>, n: nat): (picked: seq<nat>)
    requires n <= |actions|
    ensures forall k :: 0 <= k < |picked| ==> picked[k] < n && Picked(c, actions, picked[k])
  {
    if n == 0 then []
    else PickedBefore(c, actions, n - 1) + (if Picked(c, actions, n - 1) then [n - 1] else [])
  }

  lemma {:induction false} PickedCount(c: Context, actions: seq<ActionSpec>, n: nat)
    requires n <= |actions|
    ensures var owed := OwedBefore(c, actions, n);
      |PickedBefore(c, actions, n)| == if owed < c.cap then owed else c.cap
  {
    if n > 0 {
      PickedCount(c, actions, n - 1);
    }
  }

  /** The picked indices come in order, and the k-th is the one with k picked before it. */
  lemma {:induction false} PickedInOrder(c: Context, actions: seq<ActionSpec>, n: nat, k: nat)
    requires n <= |actions| && k < |PickedBefore(c, actions, n)|
    ensures var i := PickedBefore(c, actions, n)[k];
      i < n && Picked(c, actions, i) && |PickedBefore(c, actions, i)| == k
  {
    if k < |PickedBefore(c, actions, n - 1)| {
      PickedInOrder(c, actions, n - 1, k);
    }
  }

  /** After the first `n` actions these are stamped as they should be, and the rest not yet. */
  ghost predicate StampedUpTo(c: Context, actions: seq<ActionSpec>, n: nat, updated: seq<ActionSpec>)
    requires n <= |actions|
  {
    && |updated| == |actions|
    && (forall k :: 0 <= k < n ==> updated[k] == StampedList(c, actions)[k])
    && (forall k :: n <= k < |actions| ==> updated[k] == actions[k])
  }

  /** The due ones among the first `n` actions, in order. */
  ghost predicate DueUpTo(c: Context, actions: seq<ActionSpec>, n: nat, due: seq<ActionSpec>)
    requires n <= |actions|
  {
    && |due| == |PickedBefore(c, actions, n)|
    && forall k :: 0 <= k < |due| ==> due[k] == actions[PickedBefore(c, actions, n)[k]]
  }

  ghost predicate Planned(c: Context, actions: seq<ActionSpec>, n: nat, updated: seq<ActionSpec>, due: seq<ActionSpec>)
    requires n <= |actions|
  {
    StampedUpTo(c, actions, n, updated) && DueUpTo(c, actions, n, due)
  }

  /** One action more: picked, first seen, or left alone. */
  lemma PlanNext(c: Context, actions: seq<ActionSpec>, n: nat, updated: seq<ActionSpec>, due: seq<ActionSpec>,
                 stamp: bool, run: bool, updated': seq<ActionSpec>, due': seq<ActionSpec>)
    requires n < |actions| && Planned(c, actions, n, updated, due)
    requires run <==> OwedIn(c, actions[n]) && |due| < c.cap
    requires stamp <==> run || (Schedulable(actions[n]) && actions[n].lastRun.None?)
    requires updated' == if stamp then updated[n := actions[n].(lastRun := Some(c.now))] else updated
    requires due' == if run then due + [actions[n]] else due
    ensures Planned(c, actions, n + 1, updated', due')
  {
    PickedCount(c, actions, n);
    assert run <==> Picked(c, actions, n);
    PlanDue(c, actions, n, due, run, due');
    PlanStamps(c, actions, n, updated, stamp, updated');
  }

  lemma PlanStamps(c: Context, actions: seq<ActionSpec>, n: nat, updated: seq<ActionSpec>, stamp: bool,
                   updated': seq<ActionSpec>)
    requires n < |actions| && StampedUpTo(c, actions, n, updated) && (stamp <==> Stamped(c, actions, n))
    requires updated' == if stamp then updated[n := actions[n].(lastRun := Some(c.now))] else updated
    ensures StampedUpTo(c, actions, n + 1, updated')
  {
  }

  lemma PlanDue(c: Context, actions: seq<ActionSpec>, n: nat, due: seq<ActionSpec>, run: bool, due': seq<ActionSpec>)
    requires n < |actions| && DueUpTo(c, actions, n, due) && (run <==> Picked(c, actions, n))
    requires due' == if run then due + [actions[n]] else due
    ensures DueUpTo(c, actions, n + 1, due')
  {
    assert PickedBefore(c, actions, n + 1) == PickedBefore(c, actions, n) + (if run then [n] else []);
  }

  lemma PlanDone(c: Context, actions: seq<ActionSpec>, updated: seq<ActionSpec>, due: seq<ActionSpec>)
    requires Planned(c, actions, |actions|, updated, due)
    ensures updated == StampedList(c, actions) && |due| == |PickedBefore(c, actions, |actions|)|
    ensures forall k :: 0 <= k < |due| ==> due[k] == actions[PickedBefore(c, actions, |actions|)[k]]
  {
  }

  class ActionScheduler {
    const jitter: Jitter
    const maxScopesPerTick: nat
    const maxActionsPerScope: nat
    var offset: nat

    constructor (jitter: Jitter, maxScopesPerTick: nat, maxActionsPerScope: nat)
      ensures this.jitter == jitter && offset == 0
      ensures this.maxScopesPerTick == maxScopesPerTick && this.maxActionsPerScope == maxActionsPerScope
    {
      this.jitter, this.maxScopesPerTick, this.maxActionsPerScope := jitter, maxScopesPerTick, maxActionsPerScope;
      offset := 0;
    }

    /** The scopes this tick serves: all of them, or a rotating window when there are too many. */
    method Select<T>(scoped: seq<T>) returns (served: seq<T>)
      modifies this
      ensures served == Rotation.Served(scoped, old(offset), maxScopesPerTick)
      ensures offset == Rotation.NextOffset(|scoped|, old(offset), maxScopesPerTick)
    {
      served := scoped;
      if |scoped| > maxScopesPerTick {
        var start := offset % |scoped|;
        offset := start + maxScopesPerTick;
        served := (scoped[start..] + scoped[..start])[..maxScopesPerTick];
      }
    }

    /** One turn of the loop: whether this action is stamped, and whether it runs, when `due` others already do. */
    method Decide(scope: string, now: int, spec: ActionSpec, due: nat) returns (stamp: bool, run: bool)
      ensures run <==> Owed(jitter, scope, now, spec) && due < maxActionsPerScope
      ensures stamp <==> run || (Schedulable(spec) && spec.lastRun.None?)
    {
      if spec.trigger.kind != OnSchedule || spec.trigger.schedule.None? {
        return false, false;
      }
      if spec.lastRun.None? { // baseline: next slot, never a replay
        return true, false;
      }
      var schedule := spec.trigger.schedule.value;
      if !schedule.IsDue(now - jitter.Of(scope, spec, schedule), spec.lastRun.value) {
        return false, false;
      }
      run := due < maxActionsPerScope; // over the cap: left unstamped, still due next tick
      stamp := run;
    }

    /** `_for_scope` up to its write: the list to persist, and the old specs to run. */
    method Plan(scope: string, now: int, actions: seq<ActionSpec>)
        returns (updated: seq<ActionSpec>, due: seq<ActionSpec>)
      ensures var c := Context(jitter, scope, now, maxActionsPerScope);
        && updated == StampedList(c, actions)
        && var picked := PickedBefore(c, actions, |actions|);
        && |due| == |picked|
        && forall k :: 0 <= k < |due| ==> picked[k] < |actions| && due[k] == actions[picked[k]]
    {
      ghost var c := Context(jitter, scope, now, maxActionsPerScope);
      updated, due := actions, [];
      for index := 0 to |actions|
        invariant Planned(c, actions, index, updated, due)
      {
        var spec := actions[index];
        var stamp, run := Decide(scope, now, spec, |due|);
        ghost var updated0, due0 := updated, due;
        if stamp {
          updated := updated[index := spec.(lastRun := Some(now))];
        }
        if run {
          due := due + [spec];
        }
        PlanNext(c, actions, index, updated0, due0, stamp, run, updated, due);
      }
      PlanDone(c, actions, updated, due);
    }
  }

  // ---------------------------------------------------------------- one scope, await by await

  /** A scope's scheduler: what stays the same from tick to tick. */
  datatype Setup = Setup(jitter: Jitter, scope: string, cap: nat) {
    function At(now: int): Context {
      Context(jitter, scope, now, cap)
    }
  }

  /** Where the scope's tick is suspended, with the document it loaded. */
  datatype Phase =
    | Idle
    | Loaded(actions: seq<ActionSpec>)
    | Writing(now: int, actions: seq<ActionSpec>, landed: bool)
    | Running(now: int, actions: seq<ActionSpec>, started: nat)

  /** The stored document; for each of its actions the stamps that landed and the runs the engine started. */
  datatype State = State(stored: seq<ActionSpec>, stamps: seq<seq<int>>, ran: seq<seq<Span>>, phase: Phase)

  datatype Step =
    | Load           // `list_scheduled` answers
    | Plan(now: int) // `_for_scope` up to its write, or past it when nothing changed
    | Land           // the write takes effect
    | Return         // the write is reported as done
    | Raise          // the write is reported as failed, landed or not
    | StartRun       // `engine.run` starts for the next due action; the one before returned or raised
    | Stop           // the tick ends, or the process crashes

  /** The actions a tick runs, in order. */
  function Due(s: Setup, now: int, actions: seq<ActionSpec>): seq<nat> {
    PickedBefore(s.At(now), actions, |actions|)
  }

  function LandStep(c: Context, st: State): State
    requires st.phase.Writing?
  {
    var actions := st.phase.actions;
    st.(stored := StampedList(c, actions),
        stamps := seq(|st.stamps|, i requires 0 <= i < |st.stamps| =>
          if i < |actions| && Stamped(c, actions, i) then st.stamps[i] + [c.now] else st.stamps[i]),
        phase := st.phase.(landed := true))
  }

  /** The run of action `i`, as loaded: it is handed the old stamp. */
  function RunStarted(st: State, i: nat): State
    requires st.phase.Running? && i < |st.phase.actions| && i < |st.ran| && st.phase.actions[i].lastRun.Some?
  {
    st.(ran := st.ran[i := st.ran[i] + [Span(st.phase.actions[i].lastRun.value, st.phase.now)]],
        phase := st.phase.(started := st.phase.started + 1))
  }

  /** A step that is not enabled leaves the state as it is. */
  function Apply(s: Setup, st: State, a: Step): State {
    match a
    case Load => if st.phase.Idle? then st.(phase := Loaded(st.stored)) else st
    case Plan(now) =>
      if !st.phase.Loaded? then st
      else if StampedList(s.At(now), st.phase.actions) == st.phase.actions
      then st.(phase := Running(now, st.phase.actions, 0))
      else st.(phase := Writing(now, st.phase.actions, false))
    case Land => if st.phase.Writing? && !st.phase.landed then LandStep(s.At(st.phase.now), st) else st
    case Return =>
      if st.phase.Writing? && st.phase.landed then st.(phase := Running(st.phase.now, st.phase.actions, 0)) else st
    case Raise => if st.phase.Writing? then st.(phase := Idle) else st
    case StartRun =>
      if !st.phase.Running? then st
      else
        var due := Due(s, st.phase.now, st.phase.actions);
        if st.phase.started < |due| && due[st.phase.started] < |st.ran|
        then RunStarted(st, due[st.phase.started]) else st
    case Stop => st.(phase := Idle)
  }

  function Run(s: Setup, st: State, steps: seq<Step>): State
    decreases |steps|
  {
    if steps == [] then st else Run(s, Apply(s, st, steps[0]), steps[1..])
  }

  /** Nothing under way; whatever stamps the document carries landed earlier. */
  function Fresh(actions: seq<ActionSpec>): State {
    State(actions,
          seq(|actions|, i requires 0 <= i < |actions| =>
            if actions[i].lastRun.Some? then [actions[i].lastRun.value] else []),
          seq(|actions|, _ => []),
          Idle)
  }

  // ---------------------------------------------------------------- what every run keeps

  ghost predicate ValidSpecs(actions: seq<ActionSpec>) {
    forall i :: 0 <= i < |actions| ==> actions[i].trigger.Valid()
  }

  /** The run was owed when it started. */
  ghost predicate WasOwed(s: Setup, spec: ActionSpec, span: Span) {
    Owed(s.jitter, s.scope, span.at, spec.(lastRun := Some(span.since)))
  }

  /** Each run was owed and has its stamp; the stored stamp is the last that landed and covers them all. */
  ghost predicate HistoryOk(s: Setup, spec: ActionSpec, stamps: seq<int>, spans: seq<Span>) {
    && spec.trigger.Valid()
    && Chained(spans, spec.lastRun)
    && Recorded(stamps, spans, spec.lastRun)
    && forall k :: 0 <= k < |spans| ==> WasOwed(s, spec, spans[k])
  }

  ghost predicate RowOk(s: Setup, st: State, i: nat)
    requires |st.ran| == |st.stamps| == |st.stored| && i < |st.stored|
  {
    HistoryOk(s, st.stored[i], st.stamps[i], st.ran[i])
  }

  /** The stamp of this run is in the stored document, the one it is handed came just before, and it has not started. */
  ghost predicate Pending(stored: ActionSpec, loaded: ActionSpec, stamps: seq<int>, spans: seq<Span>, now: int) {
    && loaded.lastRun.Some? && stored == loaded.(lastRun := Some(now))
    && Awaiting(stamps, spans, loaded.lastRun.value, now)
  }

  ghost predicate PendingFrom(s: Setup, st: State, now: int, actions: seq<ActionSpec>, started: nat)
    requires |st.ran| == |st.stamps| == |st.stored| == |actions|
  {
    forall k :: started <= k < |Due(s, now, actions)| ==>
      var i := Due(s, now, actions)[k];
      Pending(st.stored[i], actions[i], st.stamps[i], st.ran[i], now)
  }

  ghost predicate PhaseOk(s: Setup, st: State)
    requires |st.ran| == |st.stamps| == |st.stored|
  {
    match st.phase
    case Idle => true
    case Loaded(actions) => actions == st.stored
    case Writing(now, actions, landed) =>
      if !landed then actions == st.stored
      else st.stored == StampedList(s.At(now), actions) && PendingFrom(s, st, now, actions, 0)
    case Running(now, actions, started) =>
      st.stored == StampedList(s.At(now), actions) && PendingFrom(s, st, now, actions, started)
  }

  ghost predicate Inv(s: Setup, st: State) {
    && |st.ran| == |st.stamps| == |st.stored|
    && (forall i :: 0 <= i < |st.stored| ==> RowOk(s, st, i))
    && PhaseOk(s, st)
  }

  lemma OwedIsLater(jitter: Jitter, scope: string, now: int, spec: ActionSpec)
    requires spec.trigger.Valid() && Owed(jitter, scope, now, spec)
    ensures spec.lastRun.value < now
  {
    var schedule := spec.trigger.schedule.value;
    DueIsLater(schedule, now - jitter.Of(scope, spec, schedule), spec.lastRun.value);
  }

  /** A stamp changes neither what kind of row it is nor whether its earlier runs were owed. */
  lemma SameOwed(s: Setup, spec: ActionSpec, lastRun: Option<int>, spans: seq<Span>)
    requires forall k :: 0 <= k < |spans| ==> WasOwed(s, spec, spans[k])
    ensures forall k :: 0 <= k < |spans| ==> WasOwed(s, spec.(lastRun := lastRun), spans[k])
  {
    forall k | 0 <= k < |spans|
      ensures WasOwed(s, spec.(lastRun := lastRun), spans[k])
    {
      assert WasOwed(s, spec, spans[k]);
      assert spec.(lastRun := lastRun).(lastRun := Some(spans[k].since)) == spec.(lastRun := Some(spans[k].since));
    }
  }

  /** A stamp lands, on a row seen for the first time or on one that is owed. */
  lemma LandRow(s: Setup, spec: ActionSpec, stamps: seq<int>, spans: seq<Span>, now: int)
    requires HistoryOk(s, spec, stamps, spans) && (spec.lastRun.None? || Owed(s.jitter, s.scope, now, spec))
    ensures HistoryOk(s, spec.(lastRun := Some(now)), stamps + [now], spans)
    ensures spec.lastRun.Some? ==> Pending(spec.(lastRun := Some(now)), spec, stamps + [now], spans, now)
  {
    if spec.lastRun.Some? {
      OwedIsLater(s.jitter, s.scope, now, spec);
      StampKeepsChain(spans, spec.lastRun.value, now);
      StampAwaits(stamps, spans, spec.lastRun.value, now);
    }
    RecordsStamp(stamps, spans, spec.lastRun, now);
    SameOwed(s, spec, Some(now), spans);
  }

  lemma LandKeeps(s: Setup, st: State)
    requires Inv(s, st) && st.phase.Writing? && !st.phase.landed
    ensures Inv(s, LandStep(s.At(st.phase.now), st))
  {
    var now, c, after := st.phase.now, s.At(st.phase.now), LandStep(s.At(st.phase.now), st);
    forall i | 0 <= i < |after.stored|
      ensures RowOk(s, after, i)
      ensures Picked(c, st.stored, i) ==>
        Pending(after.stored[i], st.stored[i], after.stamps[i], after.ran[i], now)
    {
      assert RowOk(s, st, i);
      if Stamped(c, st.stored, i) {
        LandRow(s, st.stored[i], st.stamps[i], st.ran[i], now);
      }
    }
  }

  /** When no stamp changes anything, nothing is owed: a run without a write cannot happen. */
  lemma NothingToWrite(s: Setup, st: State, now: int)
    requires Inv(s, st) && StampedList(s.At(now), st.stored) == st.stored
    ensures Due(s, now, st.stored) == []
  {
    var due := Due(s, now, st.stored);
    if due != [] {
      var i := due[0];
      assert RowOk(s, st, i);
      assert StampedList(s.At(now), st.stored)[i].lastRun == Some(now);
      OwedIsLater(s.jitter, s.scope, now, st.stored[i]);
    }
  }

  /** The due actions are distinct: starting one leaves the others pending. */
  lemma DueAreDistinct(s: Setup, now: int, actions: seq<ActionSpec>, j: nat, k: nat)
    requires j < k < |Due(s, now, actions)|
    ensures Due(s, now, actions)[j] != Due(s, now, actions)[k]
  {
    PickedInOrder(s.At(now), actions, |actions|, j);
    PickedInOrder(s.At(now), actions, |actions|, k);
  }

  lemma StartRow(s: Setup, stored: ActionSpec, loaded: ActionSpec, stamps: seq<int>, spans: seq<Span>, now: int)
    requires HistoryOk(s, stored, stamps, spans) && Pending(stored, loaded, stamps, spans, now)
    requires Owed(s.jitter, s.scope, now, loaded)
    ensures HistoryOk(s, stored, stamps, spans + [Span(loaded.lastRun.value, now)])
  {
    var span := Span(loaded.lastRun.value, now);
    AwaitedStarts(stamps, spans, loaded.lastRun.value, now);
    assert stored.(lastRun := Some(span.since)) == loaded;
    forall k | 0 <= k < |spans + [span]|
      ensures WasOwed(s, stored, (spans + [span])[k])
    {
      assert k < |spans| ==> WasOwed(s, stored, spans[k]);
    }
  }

  lemma StartKeeps(s: Setup, st: State)
    requires Inv(s, st) && st.phase.Running? && st.phase.started < |Due(s, st.phase.now, st.phase.actions)|
    ensures var i := Due(s, st.phase.now, st.phase.actions)[st.phase.started];
      && i < |st.ran| && i < |st.phase.actions| && Picked(s.At(st.phase.now), st.phase.actions, i)
      && Pending(st.stored[i], st.phase.actions[i], st.stamps[i], st.ran[i], st.phase.now)
      && Inv(s, RunStarted(st, i))
  {
    var now, actions, k := st.phase.now, st.phase.actions, st.phase.started;
    var due := Due(s, now, actions);
    var i := due[k];
    assert Pending(st.stored[i], actions[i], st.stamps[i], st.ran[i], now);
    assert RowOk(s, st, i);
    StartRow(s, st.stored[i], actions[i], st.stamps[i], st.ran[i], now);
    var after := RunStarted(st, i);
    forall j | 0 <= j < |after.stored| ensures RowOk(s, after, j) {
      assert RowOk(s, st, j);
    }
    forall j | k + 1 <= j < |due|
      ensures Pending(after.stored[due[j]], actions[due[j]], after.stamps[due[j]], after.ran[due[j]], now)
    {
      DueAreDistinct(s, now, actions, k, j);
      assert Pending(st.stored[due[j]], actions[due[j]], st.stamps[due[j]], st.ran[due[j]], now);
    }
  }

  lemma InvStep(s: Setup, st: State, a: Step)
    requires Inv(s, st)
    ensures Inv(s, Apply(s, st, a))
  {
    var after := Apply(s, st, a);
    if a.Land? && st.phase.Writing? && !st.phase.landed {
      LandKeeps(s, st);
    } else if a.StartRun? && st.phase.Running? && st.phase.started < |Due(s, st.phase.now, st.phase.actions)| {
      StartKeeps(s, st);
    } else {
      if a.Plan? && st.phase.Loaded? && StampedList(s.At(a.now), st.stored) == st.stored {
        NothingToWrite(s, st, a.now);
      }
      forall i | 0 <= i < |after.stored| ensures RowOk(s, after, i) {
        assert RowOk(s, st, i);
      }
    }
  }

  lemma {:induction false} InvRun(s: Setup, st: State, steps: seq<Step>)
    requires Inv(s, st)
    ensures Inv(s, Run(s, st, steps))
    decreases |steps|
  {
    if steps != [] {
      InvStep(s, st, steps[0]);
      InvRun(s, Apply(s, st, steps[0]), steps[1..]);
    }
  }

  lemma FreshInv(s: Setup, actions: seq<ActionSpec>)
    requires ValidSpecs(actions)
    ensures Inv(s, Fresh(actions))
  {
    forall i | 0 <= i < |actions| ensures RowOk(s, Fresh(actions), i) {
      assert actions[i].trigger.Valid();
    }
  }

  // ---------------------------------------------------------------- the promises

  /**
   No run precedes its stamp.  Whatever lands, raises, returns or crashes when: at the step that
   starts a run the stored document already carries its stamp, and the run is handed the stamp
   that landed just before.
   */
  lemma StampPrecedesRun(s: Setup, actions: seq<ActionSpec>, steps: seq<Step>, next: Step, i: nat)
    requires ValidSpecs(actions)
    requires var st := Run(s, Fresh(actions), steps);
      i < |st.ran| && i < |Apply(s, st, next).ran| && Apply(s, st, next).ran[i] != st.ran[i]
    ensures var st := Run(s, Fresh(actions), steps);
      && |st.ran| == |st.stored| == |st.stamps| && |st.stamps[i]| >= 2
      && var span := RunOf(st.stamps[i], |st.stamps[i]| - 2);
      && Apply(s, st, next).ran[i] == st.ran[i] + [span] && span !in st.ran[i]
      && st.stored[i].lastRun == Some(span.at)
  {
    FreshInv(s, actions);
    InvRun(s, Fresh(actions), steps);
    var st := Run(s, Fresh(actions), steps);
    assert next.StartRun? && st.phase.Running?;
    StartKeeps(s, st);
    assert RowOk(s, st, i);
    AwaitedStarts(st.stamps[i], st.ran[i], st.phase.actions[i].lastRun.value, st.phase.now);
  }

  /** The slot a run serves. */
  function SlotOf(s: Setup, spec: ActionSpec, schedule: Schedule, at: int): int {
    schedule.LatestSlot(at - s.jitter.Of(s.scope, spec, schedule))
  }

  /** The later of two runs serves a later slot, or comes a whole interval later. */
  ghost predicate Apart(s: Setup, spec: ActionSpec, first: Span, second: Span)
    requires Schedulable(spec)
  {
    var schedule := spec.trigger.schedule.value;
    if schedule.kind == Every then first.at + schedule.intervalHours * HOUR <= second.at
    else SlotOf(s, spec, schedule, first.at) < SlotOf(s, spec, schedule, second.at)
  }

  lemma TwoRuns(s: Setup, spec: ActionSpec, stamps: seq<int>, spans: seq<Span>, a: nat, b: nat)
    requires HistoryOk(s, spec, stamps, spans) && a < b < |spans|
    ensures Schedulable(spec) && spec.lastRun.Some? && spans[b].at <= spec.lastRun.value
    ensures Apart(s, spec, spans[a], spans[b])
  {
    assert WasOwed(s, spec, spans[a]) && WasOwed(s, spec, spans[b]);
    assert spans[a].at <= spans[b].since;
    var schedule := spec.trigger.schedule.value;
    if schedule.kind != Every {
      LatestSlotIsGreatest(schedule, spans[a].at - s.jitter.Of(s.scope, spec, schedule), 0);
    }
  }

  /**
   At most once per slot, over every history of crashes and lost writes: of two runs of one action
   the later serves a strictly later slot, or comes a whole interval later; the stored stamp covers
   both; and their "since the last run" windows share no message.
   */
  lemma AtMostOncePerSlot(s: Setup, actions: seq<ActionSpec>, steps: seq<Step>, i: nat, a: nat, b: nat, t: int)
    requires ValidSpecs(actions)
    requires var st := Run(s, Fresh(actions), steps); i < |st.ran| && a < b < |st.ran[i]|
    ensures var st := Run(s, Fresh(actions), steps);
      && |st.stored| == |st.ran| && Schedulable(st.stored[i])
      && st.stored[i].lastRun.Some? && st.ran[i][b].at <= st.stored[i].lastRun.value
      && Apart(s, st.stored[i], st.ran[i][a], st.ran[i][b])
      && !(InWindow(st.ran[i][a], t) && InWindow(st.ran[i][b], t))
  {
    FreshInv(s, actions);
    InvRun(s, Fresh(actions), steps);
    var st := Run(s, Fresh(actions), steps);
    assert RowOk(s, st, i);
    TwoRuns(s, st.stored[i], st.stamps[i], st.ran[i], a, b);
    WindowsDisjoint(st.ran[i], st.stored[i].lastRun, a, b, t);
  }

  /**
   Over every history: one action's windows tile the archive from its first stamp to its last
   exactly when every later stamp that landed started its run and none came over 30 days late.
   */
  lemma RunsTileExactly(s: Setup, actions: seq<ActionSpec>, steps: seq<Step>, i: nat)
    requires ValidSpecs(actions)
    requires var st := Run(s, Fresh(actions), steps); i < |st.ran| && i < |st.stamps| && st.stamps[i] != []
    ensures var st := Run(s, Fresh(actions), steps);
      var stamps := st.stamps[i];
      (forall t :: Covered(st.ran[i], t) <==> stamps[0] <= t < stamps[|stamps| - 1]) <==> NothingLost(stamps, st.ran[i])
  {
    FreshInv(s, actions);
    InvRun(s, Fresh(actions), steps);
    var st := Run(s, Fresh(actions), steps);
    assert RowOk(s, st, i);
    WindowsTileExactly(st.stamps[i], st.ran[i], st.stored[i].lastRun);
  }

  // ---------------------------------------------------------------- due actions are run

  /** The first `n` due actions of this tick, action `i` among them. */
  ghost predicate AmongDue(due: seq<nat>, n: nat, i: nat)
    requires n <= |due|
  {
    exists k :: 0 <= k < n && due[k] == i
  }

  /** After `n` starts: each of the first `n` due actions has its run, and no other has a new one. */
  ghost predicate StartedFirst(s: Setup, st: State, now: int, n: nat, end: State)
    requires |st.ran| == |st.stored| && n <= |Due(s, now, st.stored)|
  {
    && |end.ran| == |st.ran|
    && forall i :: 0 <= i < |st.ran| ==> end.ran[i] == HistoryAfter(st, Due(s, now, st.stored), n, now, i)
  }

  /** Action `i`'s runs once the first `n` of `due` have started theirs. */
  ghost function HistoryAfter(st: State, due: seq<nat>, n: nat, now: int, i: nat): seq<Span>
    requires |st.ran| == |st.stored| && n <= |due| && i < |st.ran|
  {
    if AmongDue(due, n, i) && st.stored[i].lastRun.Some?
    then st.ran[i] + [Span(st.stored[i].lastRun.value, now)] else st.ran[i]
  }

  /** `n` times the start of a run. */
  function Starts(n: nat): (steps: seq<Step>)
    ensures |steps| == n
  {
    seq(n, _ => StartRun)
  }

  lemma {:induction false} RunSplit(s: Setup, st: State, a: seq<Step>, b: seq<Step>)
    ensures Run(s, st, a + b) == Run(s, Run(s, st, a), b)
    decreases |a|
  {
    if a == [] {
      assert a + b == b;
    } else {
      assert (a + b)[1..] == a[1..] + b;
      RunSplit(s, Apply(s, st, a[0]), a[1..], b);
    }
  }

  lemma OneStep(s: Setup, st: State, a: Step)
    ensures Run(s, st, [a]) == Apply(s, st, a)
  {
    assert [a][1..] == [];
    assert Run(s, st, [a]) == Run(s, Apply(s, st, a), []);
  }

  /** A tick's way to its runs: loaded, planned, and its write, if it has one, landed and returned. */
  lemma TickReachesRuns(s: Setup, st: State, now: int)
    requires Inv(s, st) && st.phase == Idle
    ensures var ready := Run(s, st, [Load, Plan(now), Land, Return]);
      && Inv(s, ready) && ready.phase == Running(now, st.stored, 0) && ready.ran == st.ran
      && ready.stored == StampedList(s.At(now), st.stored)
  {
    var steps := [Load, Plan(now), Land, Return];
    var st1 := Apply(s, st, Load);
    var st2 := Apply(s, st1, Plan(now));
    var st3 := Apply(s, st2, Land);
    var st4 := Apply(s, st3, Return);
    assert steps[1..] == [Plan(now), Land, Return] && steps[1..][1..] == [Land, Return];
    assert [Land, Return][1..] == [Return];
    OneStep(s, st3, Return);
    assert Run(s, st2, [Land, Return]) == st4;
    assert Run(s, st1, [Plan(now), Land, Return]) == st4;
    assert Run(s, st, steps) == st4;
    InvRun(s, st, steps);
  }

  /** One more start. */
  lemma StartsNext(s: Setup, st: State, now: int, n: nat, mid: State)
    requires |st.ran| == |st.stored| && n < |Due(s, now, st.stored)| && StartedFirst(s, st, now, n, mid)
    requires Inv(s, mid) && mid.phase == Running(now, st.stored, n)
    ensures var end := Apply(s, mid, StartRun);
      && StartedFirst(s, st, now, n + 1, end) && end.phase == Running(now, st.stored, n + 1)
      && end.stored == mid.stored && Inv(s, end)
  {
    var due := Due(s, now, st.stored);
    StartKeeps(s, mid);
    StartIs(s, mid);
    forall k | 0 <= k < n ensures due[k] != due[n] {
      DueAreDistinct(s, now, st.stored, k, n);
    }
    RanNext(st, mid.ran, due, n, now);
  }

  lemma StartIs(s: Setup, st: State)
    requires st.phase.Running? && st.phase.started < |Due(s, st.phase.now, st.phase.actions)|
    requires Due(s, st.phase.now, st.phase.actions)[st.phase.started] < |st.ran|
    ensures Apply(s, st, StartRun) == RunStarted(st, Due(s, st.phase.now, st.phase.actions)[st.phase.started])
  {
  }

  /** The histories after one more of the due actions has started. */
  lemma RanNext(st: State, ran: seq<seq<Span>>, due: seq<nat>, n: nat, now: int)
    requires |st.ran| == |st.stored| == |ran| && n < |due| && due[n] < |ran| && st.stored[due[n]].lastRun.Some?
    requires forall k :: 0 <= k < n ==> due[k] != due[n]
    requires forall i :: 0 <= i < |ran| ==> ran[i] == HistoryAfter(st, due, n, now, i)
    ensures var after := ran[due[n] := ran[due[n]] + [Span(st.stored[due[n]].lastRun.value, now)]];
      forall i :: 0 <= i < |ran| ==> after[i] == HistoryAfter(st, due, n + 1, now, i)
  {
    forall i | 0 <= i < |ran| ensures AmongDue(due, n + 1, i) <==> AmongDue(due, n, i) || i == due[n] {
      assert due[n] == i ==> AmongDue(due, n + 1, i);
    }
  }

  lemma {:induction false} StartsInTurn(s: Setup, st: State, now: int, n: nat, ready: State)
    requires |st.ran| == |st.stored| && n <= |Due(s, now, st.stored)|
    requires Inv(s, ready) && ready.phase == Running(now, st.stored, 0) && ready.ran == st.ran
    ensures var end := Run(s, ready, Starts(n));
      && StartedFirst(s, st, now, n, end) && end.phase == Running(now, st.stored, n)
      && end.stored == ready.stored && Inv(s, end)
  {
    if n > 0 {
      StartsInTurn(s, st, now, n - 1, ready);
      var mid := Run(s, ready, Starts(n - 1));
      StartsNext(s, st, now, n - 1, mid);
      assert Starts(n) == Starts(n - 1) + [StartRun];
      RunSplit(s, ready, Starts(n - 1), [StartRun]);
      OneStep(s, mid, StartRun);
    } else {
      assert Starts(0) == [];
    }
  }

  /** The steps of a tick that nothing disturbs. */
  function TickSteps(s: Setup, now: int, actions: seq<ActionSpec>): seq<Step> {
    [Load, Plan(now), Land, Return] + Starts(|Due(s, now, actions)|)
  }

  /**
   An undisturbed tick runs exactly the picked actions, each once, from its old stamp to now, leaves
   every other history as it was, and stores every stamp.
   */
  lemma TickRunsPicked(s: Setup, st: State, now: int, i: nat)
    requires Inv(s, st) && st.phase == Idle && i < |st.ran|
    ensures var end := Run(s, st, TickSteps(s, now, st.stored));
      && |end.ran| == |st.ran| && end.stored == StampedList(s.At(now), st.stored)
      && end.phase == Running(now, st.stored, |Due(s, now, st.stored)|)
      && end.ran[i] == if Picked(s.At(now), st.stored, i) && st.stored[i].lastRun.Some?
                       then st.ran[i] + [Span(st.stored[i].lastRun.value, now)] else st.ran[i]
  {
    var due := Due(s, now, st.stored);
    TickReachesRuns(s, st, now);
    var ready := Run(s, st, [Load, Plan(now), Land, Return]);
    RunSplit(s, st, [Load, Plan(now), Land, Return], Starts(|due|));
    StartsInTurn(s, st, now, |due|, ready);
    if Picked(s.At(now), st.stored, i) {
      PickedIsDue(s.At(now), st.stored, |st.stored|, i);
    }
    assert AmongDue(due, |due|, i) <==> Picked(s.At(now), st.stored, i);
  }

  lemma {:induction false} PickedIsDue(c: Context, actions: seq<ActionSpec>, n: nat, i: nat)
    requires i < n <= |actions| && Picked(c, actions, i)
    ensures AmongDue(PickedBefore(c, actions, n), |PickedBefore(c, actions, n)|, i)
  {
    var due := PickedBefore(c, actions, n);
    if i == n - 1 {
      assert due[|due| - 1] == i;
    } else {
      PickedIsDue(c, actions, n - 1, i);
      var k :| 0 <= k < |PickedBefore(c, actions, n - 1)| && PickedBefore(c, actions, n - 1)[k] == i;
      assert due[k] == i;
    }
  }

  /** A scheduled action's time has come: its whole interval, or one of its slots, has passed since its stamp. */
  ghost predicate TimeHasCome(s: Setup, spec: ActionSpec, now: int) {
    && spec.trigger.kind == OnSchedule && spec.trigger.schedule.Some? && spec.lastRun.Some?
    && var schedule := spec.trigger.schedule.value;
    if schedule.kind == Every then spec.lastRun.value + schedule.intervalHours * HOUR <= now
    else exists slot ::
      schedule.IsSlot(slot) && spec.lastRun.value < slot <= now - s.jitter.Of(s.scope, spec, schedule)
  }

  predicate FirstSeen(spec: ActionSpec) {
    spec.trigger.kind == OnSchedule && spec.trigger.schedule.Some? && spec.lastRun.None?
  }

  lemma OwedMeans(s: Setup, spec: ActionSpec, now: int)
    requires spec.trigger.Valid()
    ensures Owed(s.jitter, s.scope, now, spec) <==> TimeHasCome(s, spec, now)
  {
    if Schedulable(spec) && spec.lastRun.Some? {
      var schedule := spec.trigger.schedule.value;
      if schedule.kind != Every {
        DueExactlyWhenASlotPassed(schedule, now - s.jitter.Of(s.scope, spec, schedule), spec.lastRun.value);
      }
    }
  }

  /**
   Below the cap, in any history: an undisturbed tick runs an action, once and from its old stamp,
   exactly when its time has come, and otherwise leaves it alone; what ran and what is seen for the
   first time is stamped now, and nothing else.
   */
  lemma TickServesWhoseTimeHasCome(s: Setup, actions: seq<ActionSpec>, steps: seq<Step>, now: int, i: nat)
    requires ValidSpecs(actions)
    requires var st := Run(s, Fresh(actions), steps);
      st.phase == Idle && i < |st.ran| && |Due(s, now, st.stored)| < s.cap
    ensures var st := Run(s, Fresh(actions), steps);
      var end := Run(s, st, TickSteps(s, now, st.stored));
      && |end.ran| == |st.ran| == |st.stored|
      && (if TimeHasCome(s, st.stored[i], now)
          then end.ran[i] == st.ran[i] + [Span(st.stored[i].lastRun.value, now)] else end.ran[i] == st.ran[i])
      && |end.stored| == |st.stored|
      && end.stored[i] == if TimeHasCome(s, st.stored[i], now) || FirstSeen(st.stored[i])
                          then st.stored[i].(lastRun := Some(now)) else st.stored[i]
  {
    FreshInv(s, actions);
    InvRun(s, Fresh(actions), steps);
    var st, c := Run(s, Fresh(actions), steps), s.At(now);
    TickRunsPicked(s, st, now, i);
    assert RowOk(s, st, i);
    OwedMeans(s, st.stored[i], now);
    PickedCount(c, st.stored, |st.stored|);
    OwedGrows(c, st.stored, i, |st.stored|);
  }

  /** Offsets are whole seconds, less than the window's, and none when there is no window. */
  lemma JitterIsSeconds(jitter: Jitter, scope: string, a: ActionSpec, schedule: Schedule)
    ensures exists seconds: nat ::
      && jitter.Of(scope, a, schedule) == 1_000_000 * seconds
      && (if jitter.windowSeconds > 0 then seconds < jitter.windowSeconds else seconds == 0)
  {
    var offset := jitter.Of(scope, a, schedule);
    if jitter.windowSeconds == 0 || schedule.kind == Every {
      assert offset == 1_000_000 * 0;
    } else {
      var seconds := jitter.hash(scope, a.actionId) % jitter.windowSeconds;
      assert offset == 1_000_000 * seconds;
    }
  }

  /** The stable offsets of two actions differ exactly when their hashes do, in the window. */
  lemma JitterSpreads(jitter: Jitter, scope: string, a: ActionSpec, b: ActionSpec, schedule: Schedule)
    requires jitter.windowSeconds > 0 && schedule.kind != Every
    ensures var first, second := jitter.hash(scope, a.actionId), jitter.hash(scope, b.actionId);
      jitter.Of(scope, a, schedule) == jitter.Of(scope, b, schedule)
      <==> first % jitter.windowSeconds == second % jitter.windowSeconds
  {
  }

  /** A tick whose write is reported as failed, landed or not, or that is stopped, starts no further run. */
  lemma AbandonedTickRunsNothing(s: Setup, st: State, a: Step, starts: nat)
    requires a == Stop || (a == Raise && st.phase.Writing?)
    ensures Run(s, Apply(s, st, a), Starts(starts)) == st.(phase := Idle)
  {
    IdleStartsNothing(s, st.(phase := Idle), starts);
  }

  /** A scope's ticks do not overlap: until one has ended no other begins, and each begins with the stored document. */
  lemma OneTickAtATime(s: Setup, st: State)
    ensures Apply(s, st, Load).phase == if st.phase == Idle then Loaded(st.stored) else st.phase
    ensures Apply(s, st, Load).stored == st.stored && Apply(s, st, Load).ran == st.ran
  {
  }

  lemma {:induction false} IdleStartsNothing(s: Setup, st: State, starts: nat)
    requires st.phase.Idle?
    ensures Run(s, st, Starts(starts)) == st
  {
    if starts > 0 {
      assert Starts(starts)[0] == StartRun && Starts(starts)[1..] == Starts(starts - 1);
      IdleStartsNothing(s, st, starts - 1);
    }
  }

  /** The tick's stamps are in the stored document. */
  predicate Persisted(phase: Phase) {
    phase.Running? || (phase.Writing? && phase.landed)
  }

  /**
   From the moment a tick's stamps are stored, when its cap cut nothing, no slot up to the jittered
   moment is still owed, in any history.
   */
  lemma PersistedTickCatchesUp(s: Setup, actions: seq<ActionSpec>, steps: seq<Step>, i: nat)
    requires ValidSpecs(actions)
    requires var st := Run(s, Fresh(actions), steps);
      && Persisted(st.phase) && i < |st.stored|
      && OwedBefore(s.At(st.phase.now), st.phase.actions, |st.phase.actions|) <= s.cap
      && Schedulable(st.stored[i]) && st.stored[i].trigger.schedule.value.kind != Every
    ensures var st := Run(s, Fresh(actions), steps);
      && st.stored[i].lastRun.Some?
      && st.stored[i].lastRun.value >= SlotOf(s, st.stored[i], st.stored[i].trigger.schedule.value, st.phase.now)
  {
    FreshInv(s, actions);
    InvRun(s, Fresh(actions), steps);
    var st := Run(s, Fresh(actions), steps);
    assert RowOk(s, st, i);
    assert st.stored == StampedList(s.At(st.phase.now), st.phase.actions);
    UncappedCatchesUp(s, st.phase.now, st.phase.actions, i);
  }

  /** A stamping that no cap cut leaves no slot owed. */
  lemma UncappedCatchesUp(s: Setup, now: int, actions: seq<ActionSpec>, i: nat)
    requires i < |actions| && actions[i].trigger.Valid() && OwedBefore(s.At(now), actions, |actions|) <= s.cap
    requires Schedulable(actions[i]) && actions[i].trigger.schedule.value.kind != Every
    ensures var stamped := StampedList(s.At(now), actions)[i];
      stamped.lastRun.Some? && stamped.lastRun.value >= SlotOf(s, stamped, stamped.trigger.schedule.value, now)
  {
    var spec, schedule := actions[i], actions[i].trigger.schedule.value;
    LatestSlotIsGreatest(schedule, now - s.jitter.Of(s.scope, spec, schedule), 0);
    OwedGrows(s.At(now), actions, i + 1, |actions|);
  }

  lemma {:induction false} OwedGrows(c: Context, actions: seq<ActionSpec>, m: nat, n: nat)
    requires m <= n <= |actions|
    ensures OwedBefore(c, actions, m) <= OwedBefore(c, actions, n)
    decreases n
  {
    if m < n {
      OwedGrows(c, actions, m, n - 1);
    }
  }
}
