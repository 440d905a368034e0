/**
 Tombstones, exactly: when one keeps every later message of its scope out of the archive, and for
 each way it can fail the run that shows it.
 */
module CaptureTombstones {
  import opened Basics
  import opened Capture

  /** No message of `t` that arrives from `st` on is ever archived, however the tasks interleave. */
  ghost predicate StaysRevoked(st: State, t: Scope) {
    forall future :: AllQuiet(future, t) ==> NothingLate(Run(st, future), t, st.nextId)
  }

  /**
   What a tombstone needs.  Either nothing stored lets the scope through, or its own yes does and
   no task is about to lift the tombstone without writing a no first.  A topic that inherits a yes
   has neither: its retry finds nothing of its own to switch off.
   */
  ghost predicate TombstoneHolds(st: State, t: Scope) {
    Shut(st.stored, t) || (Lookup(st.stored, t) == Some(true) && NoLifts(st.tasks, t))
  }

  lemma DeniedIsSafe(st: State, t: Scope)
    requires Inv(st) && NoGrants(st.tasks, t) && TombstoneHolds(st, t)
    ensures Safe(Apply(st, Deny(t)), t, st.nextId)
  {
    var st' := Apply(st, Deny(t));
    forall j | j in st'.tasks
      ensures TaskSafe(st'.tasks[j], j, t, st.nextId, st'.mem, st'.stored)
    {
      assert TaskOk(st.tasks[j], j, st.mem, st.lock);
      assert !st.tasks[j].Grants(t) && !st.tasks[j].Grants(t.Group());
    }
  }

  lemma {:induction false} RunSplit(st: State, a: seq<Action>, b: seq<Action>)
    ensures Run(st, a + b) == Run(Run(st, a), b)
    decreases |a|
  {
    if a == [] {
      assert a + b == b;
    } else {
      assert (a + b)[1..] == a[1..] + b;
      RunSplit(Apply(st, a[0]), a[1..], b);
    }
  }

  lemma RunOne(st: State, a: Action)
    ensures Run(st, [a]) == Apply(st, a)
  {
    assert [a][1..] == [];
    assert Run(st, [a]) == Run(Apply(st, a), []);
  }

  lemma RunTwo(st: State, a: Action, b: Action)
    ensures Run(st, [a, b]) == Apply(Apply(st, a), b)
  {
    assert [a, b][1..] == [b] && [b][1..] == [];
    assert Run(Apply(st, a), [b]) == Apply(Apply(st, a), b);
  }

  lemma RunThree(st: State, a: Action, b: Action, c: Action)
    ensures Run(st, [a, b, c]) == Apply(Apply(Apply(st, a), b), c)
  {
    var st1, st2 := Apply(st, a), Apply(Apply(st, a), b);
    assert [a, b, c][1..] == [b, c] && [b, c][1..] == [c] && [c][1..] == [];
    assert Run(st2, [c]) == Apply(st2, c);
    assert Run(st1, [b, c]) == Run(st2, [c]);
  }

  /** A message of a scope that is on, not denied and not cached: it arrives, reads, and is archived. */
  function Arrival(st: State, t: Scope): seq<Action> {
    [Start(Ingest(t, true)), Advance(st.nextId, true), Advance(st.nextId, true)]
  }

  lemma ArrivalArchives(st: State, t: Scope)
    requires t !in st.mem.denied && t !in st.mem.cache && Lookup(st.stored, t) == Some(true)
    ensures Run(st, Arrival(st, t)).archived == st.archived + [(st.nextId, t)]
  {
    var n := st.nextId;
    var e := EpochOf(st.mem.epoch, t.channel);
    var arrived := Apply(st, Start(Ingest(t, true)));
    assert arrived.tasks[n] == Looking(t, e, st.now) && arrived.stored == st.stored;
    var looked := Apply(arrived, Advance(n, true));
    assert looked.tasks[n] == Looked(t, e, st.now, Some(true)) && looked.archived == st.archived;
    assert ReadEffect(looked, looked.tasks[n], true) == Decided(looked, looked.tasks[n], true);
    RunThree(st, Start(Ingest(t, true)), Advance(n, true), Advance(n, true));
  }

  /** The run a stale lift allows: it lifts the tombstone, and the next message is archived. */
  function Relapse(st: State, id: nat, t: Scope): seq<Action> {
    [Advance(id, true)] + Arrival(st, t)
  }

  lemma LiftDrops(st: State, id: nat, t: Scope)
    requires id in st.tasks && st.tasks[id].Lifts(t)
    ensures var st' := Apply(st, Advance(id, true));
      && t !in st'.mem.denied && t !in st'.mem.cache && st'.stored == st.stored
      && st'.nextId == st.nextId
  {
    assert AdvanceEffect(st, id, st.tasks[id], true).mem == Lifted(st.mem, t);
  }

  lemma RelapseArchives(st: State, id: nat, t: Scope)
    requires Lookup(st.stored, t) == Some(true) && id in st.tasks && st.tasks[id].Lifts(t)
    ensures AllQuiet(Relapse(st, id, t), t)
    ensures !NothingLate(Run(Apply(st, Deny(t)), Relapse(st, id, t)), t, st.nextId)
  {
    var denied := Apply(st, Deny(t));
    LiftDrops(denied, id, t);
    var lifted := Apply(denied, Advance(id, true));
    ArrivalArchives(lifted, t);
    var end := Run(lifted, Arrival(lifted, t));
    assert end.archived[|end.archived| - 1] == (st.nextId, t);
    assert [Advance(id, true)][1..] == [] && Run(denied, [Advance(id, true)]) == lifted;
    RunSplit(denied, [Advance(id, true)], Arrival(lifted, t));
  }

  lemma SwitchStarts(st: State, t: Scope, on: bool)
    ensures var n := st.nextId;
      var st' := Apply(st, Start(if on then SwitchOn(t) else SwitchOff(t, true)));
      && st'.tasks == st.tasks[n := if on then SwitchingOn(t) else SwitchingOff(t, true)]
      && st'.stored == st.stored && st'.nextId == n + 1 && st'.lock == st.lock
  {
  }

  lemma SwitchLands(st: State, n: nat, t: Scope, on: bool)
    requires n in st.tasks && st.tasks[n] == if on then SwitchingOn(t) else SwitchingOff(t, true)
    ensures var st' := Apply(st, Advance(n, true));
      && st'.tasks == st.tasks[n := if on then SwitchedOn(t) else SwitchedOff(t, true)]
      && st'.stored == st.stored[t := on] && st'.nextId == st.nextId && st'.lock == st.lock
  {
  }

  /** An explicit switch, started and landed. */
  lemma SwitchRuns(st: State, job: Job, n: nat, t: Scope, on: bool)
    requires job == (if on then SwitchOn(t) else SwitchOff(t, true)) && n == st.nextId
    ensures var st' := Run(st, [Start(job), Advance(n, true)]);
      && st'.tasks == st.tasks[n := if on then SwitchedOn(t) else SwitchedOff(t, true)]
      && st'.stored == st.stored[t := on] && st'.nextId == n + 1 && st'.lock == st.lock
  {
    SwitchStarts(st, t, on);
    SwitchLands(Apply(st, Start(job)), n, t, on);
    RunTwo(st, Start(job), Advance(n, true));
  }

  /** The switch's own invalidation ends it. */
  lemma SwitchEnds(st: State, n: nat, t: Scope)
    requires n in st.tasks && st.tasks[n] == SwitchedOn(t)
    ensures var st' := Run(st, [Advance(n, true)]);
      st'.tasks == st.tasks[n := Done] && st'.stored == st.stored
  {
    RunOne(st, Advance(n, true));
  }

  /** Two more steps of a tombstone retry: it has the lock, and it has read. */
  lemma RetryReads(st: State, n: nat, t: Scope)
    requires n in st.tasks && st.tasks[n] == RetryWait(t) && st.lock == None && t in st.mem.denied
    ensures var st' := Run(st, [Advance(n, true), Advance(n, true)]);
      && st'.tasks == st.tasks[n := RetryRead(t, Lookup(st.stored, t))] && st'.stored == st.stored
      && st'.nextId == st.nextId
  {
    var go := Advance(n, true);
    RetryMoves(st, n);
    RetryMoves(Apply(st, go), n);
    RunTwo(st, go, go);
  }

  /** Two more: it has found a yes, and its no has landed. */
  lemma RetryWrites(st: State, n: nat, t: Scope)
    requires n in st.tasks && st.tasks[n] == RetryRead(t, Some(true))
    ensures var st' := Run(st, [Advance(n, true), Advance(n, true)]);
      && st'.tasks == st.tasks[n := RetryWritten(t)] && st'.stored == st.stored[t := false]
      && st'.nextId == st.nextId
  {
    var go := Advance(n, true);
    RetryMoves(st, n);
    RetryMoves(Apply(st, go), n);
    RunTwo(st, go, go);
  }

  /** `enable_scope`, from its wait for a free lock to its landed write. */
  lemma EnableLands(st: State, n: nat, t: Scope)
    requires n in st.tasks && st.tasks[n] == EnableWait(t) && st.lock == None
    ensures var st' := Run(st, [Advance(n, true), Advance(n, true)]);
      st'.tasks == st.tasks[n := Enabled(t)] && st'.stored == st.stored[t := true]
  {
    var go := Advance(n, true);
    EnableMoves(st, n);
    EnableMoves(Apply(st, go), n);
    RunTwo(st, go, go);
  }

  lemma EnableEnds(st: State, n: nat, t: Scope)
    requires n in st.tasks && st.tasks[n] == Enabled(t)
    ensures var st' := Run(st, [Advance(n, true)]);
      st'.tasks == st.tasks[n := Done] && st'.stored == st.stored
  {
    RunOne(st, Advance(n, true));
    EnableMoves(st, n);
  }

  /** Such a lift is there to meet: a retry's no has landed, `/capture on` overwrote it, and the retry resumes last. */
  lemma StaleLiftIsReachable(t: Scope, now: int, ttl: int)
    ensures exists st ::
      && Reachable(st) && NoGrants(st.tasks, t) && Lookup(st.stored, t) == Some(true) && !NoLifts(st.tasks, t)
  {
    var st := StaleRetry(t, now, ttl);
    assert st.tasks[0].Lifts(t);
  }

  lemma RetryStarts(st: State, t: Scope)
    ensures var st', n := Run(st, [Deny(t), Start(Converge(t))]), st.nextId;
      && st'.tasks == st.tasks[n := RetryWait(t)] && st'.stored == st.stored && st'.nextId == n + 1
      && t in st'.mem.denied && st'.lock == st.lock
  {
    RunTwo(st, Deny(t), Start(Converge(t)));
  }

  /** A tombstone's retry, up to its landed no. */
  lemma RetryLands(st: State, t: Scope) returns (retry: seq<Action>)
    requires st.lock == None && Lookup(st.stored, t) == Some(true)
    ensures var st', n := Run(st, retry), st.nextId;
      st'.tasks == st.tasks[n := RetryWritten(t)] && st'.stored == st.stored[t := false] && st'.nextId == n + 1
  {
    var n := st.nextId;
    var begin, two := [Deny(t), Start(Converge(t))], [Advance(n, true), Advance(n, true)];
    RetryStarts(st, t);
    var st1 := Run(st, begin);
    RetryReads(st1, n, t);
    var st2 := Run(st1, two);
    RetryWrites(st2, n, t);
    Extends(st, begin, st1, two, st2);
    Extends(st, begin + two, st2, two, Run(st2, two));
    retry := begin + two + two;
  }

  /** `/capture on`, to its end. */
  lemma SwitchesOn(st: State, t: Scope) returns (switch: seq<Action>)
    ensures var st' := Run(st, switch);
      st'.tasks == st.tasks[st.nextId := Done] && st'.stored == st.stored[t := true]
  {
    var n := st.nextId;
    var first := [Start(SwitchOn(t)), Advance(n, true)];
    SwitchRuns(st, SwitchOn(t), n, t, true);
    var st1 := Run(st, first);
    SwitchEnds(st1, n, t);
    Extends(st, first, st1, [Advance(n, true)], Run(st1, [Advance(n, true)]));
    switch := first + [Advance(n, true)];
  }

  /** `enable_scope` on a free lock, to its end. */
  lemma Enables(st: State, t: Scope) returns (enable: seq<Action>)
    requires st.lock == None
    ensures var st' := Run(st, enable);
      st'.tasks == st.tasks[st.nextId := Done] && st'.stored == st.stored[t := true]
  {
    var n := st.nextId;
    var start, two, end := [Start(Enable(t))], [Advance(n, true), Advance(n, true)], [Advance(n, true)];
    RunOne(st, Start(Enable(t)));
    var st1 := Run(st, start);
    assert st1.tasks == st.tasks[n := EnableWait(t)] && st1.stored == st.stored && st1.lock == None;
    EnableLands(st1, n, t);
    var st2 := Run(st1, two);
    EnableEnds(st2, n, t);
    Extends(st, start, st1, two, st2);
    Extends(st, start + two, st2, end, Run(st2, end));
    enable := start + two + end;
  }

  lemma StaleRetry(t: Scope, now: int, ttl: int) returns (st: State)
    ensures Reachable(st) && st.stored == map[t := true] && st.tasks == map[0 := RetryWritten(t), 1 := Done]
  {
    var st0 := Init(map[t := true], now, ttl);
    var retry := RetryLands(st0, t);
    var st1 := Run(st0, retry);
    var switch := SwitchesOn(st1, t);
    st := Run(st1, switch);
    Extends(st0, retry, st1, switch, st);
    assert st.tasks == map[0 := RetryWritten(t), 1 := Done];
  }

  /** And for a channel: a demotion's no has landed, a promotion's enable completes, the demotion resumes last. */
  lemma StaleDemotion(t: Scope, now: int, ttl: int) returns (st: State)
    ensures Reachable(st) && st.stored == map[t := true] && st.tasks == map[0 := SwitchedOff(t, true), 1 := Done]
  {
    var st0 := Init(map[], now, ttl);
    SwitchRuns(st0, SwitchOff(t, true), 0, t, false);
    var demote := [Start(SwitchOff(t, true)), Advance(0, true)];
    var st1 := Run(st0, demote);
    var enable := Enables(st1, t);
    st := Run(st1, enable);
    Extends(st0, demote, st1, enable, st);
    assert st.tasks == map[0 := SwitchedOff(t, true), 1 := Done];
  }

  /** A run and a second one are one run. */
  lemma Extends(st0: State, a: seq<Action>, st1: State, b: seq<Action>, st2: State)
    requires st1 == Run(st0, a) && st2 == Run(st1, b)
    ensures Run(st0, a + b) == st2
  {
    RunSplit(st0, a, b);
  }

  /** A retry for a scope nobody decided takes the lock, reads, and finds nothing to switch off. */
  lemma UndecidedRetryReads(st: State, t: Scope)
    requires st.lock == None && t in st.mem.denied && t !in st.stored
    ensures var n := st.nextId;
      var st' := Run(st, [Start(Converge(t)), Advance(n, true), Advance(n, true)]);
      && n in st'.tasks && st'.tasks[n] == RetryRead(t, None) && st'.mem == st.mem
      && st'.stored == st.stored && st'.archived == st.archived && st'.nextId == n + 1
  {
    var n, go := st.nextId, Advance(st.nextId, true);
    RetryArrives(st, t);
    var st1 := Apply(st, Start(Converge(t)));
    RetryMoves(st1, n);
    RetryMoves(Apply(st1, go), n);
    RunThree(st, Start(Converge(t)), go, go);
  }

  lemma RetryArrives(st: State, t: Scope)
    ensures var n, st' := st.nextId, Apply(st, Start(Converge(t)));
      && n in st'.tasks && st'.tasks[n] == RetryWait(t) && st'.mem == st.mem && st'.lock == st.lock
      && st'.stored == st.stored && st'.archived == st.archived && st'.nextId == n + 1
  {
  }

  lemma UndecidedRetrySettles(st: State, n: nat, t: Scope)
    requires n in st.tasks && st.tasks[n] == RetryRead(t, None) && t.thread != ""
    ensures var st' := Run(st, [Advance(n, true)]);
      && t !in st'.mem.denied && t !in st'.mem.cache && st'.stored == st.stored
      && st'.archived == st.archived && st'.nextId == st.nextId
  {
    assert AdvanceEffect(st, n, st.tasks[n], true) == Settles(st, t);
    assert [Advance(n, true)][1..] == [];
    assert Run(st, [Advance(n, true)]) == Apply(st, Advance(n, true));
  }

  /** The whole retry: it lifts. */
  lemma UndecidedRetryLifts(st: State, t: Scope) returns (retry: seq<Action>)
    requires st.lock == None && t in st.mem.denied && t !in st.stored && t.thread != ""
    ensures AllQuiet(retry, t)
    ensures var st' := Run(st, retry);
      && t !in st'.mem.denied && t !in st'.mem.cache && st'.stored == st.stored
      && st'.archived == st.archived && st'.nextId == st.nextId + 1
  {
    var n := st.nextId;
    var first := [Start(Converge(t)), Advance(n, true), Advance(n, true)];
    UndecidedRetryReads(st, t);
    UndecidedRetrySettles(Run(st, first), n, t);
    RunSplit(st, first, [Advance(n, true)]);
    retry := first + [Advance(n, true)];
    assert Quiet(Start(Converge(t)), t);
  }

  /** A message of a topic that is neither denied nor cached starts to read its own profile. */
  lemma TopicArrives(st: State, t: Scope)
    requires t !in st.mem.denied && t !in st.mem.cache && t.thread != ""
    ensures var n, st' := st.nextId, Apply(st, Start(Ingest(t, true)));
      && n in st'.tasks && st'.tasks[n] == Looking(t, EpochOf(st.mem.epoch, t.channel), st.now)
      && st'.stored == st.stored && st'.archived == st.archived && st'.now == st.now
  {
  }

  lemma TopicReads(st: State, n: nat)
    requires n in st.tasks && st.tasks[n].Looking?
    ensures var task, st' := st.tasks[n], Apply(st, Advance(n, true));
      && n in st'.tasks && st'.tasks[n] == Looked(task.scope, task.epoch, task.readAt, Lookup(st.stored, task.scope))
      && st'.stored == st.stored && st'.archived == st.archived
  {
  }

  lemma TopicTurnsToGroup(st: State, n: nat)
    requires n in st.tasks && st.tasks[n].Looked? && st.tasks[n].found == None && st.tasks[n].scope.thread != ""
    ensures var task, st' := st.tasks[n], Apply(st, Advance(n, true));
      && n in st'.tasks && st'.tasks[n] == LookingGroup(task.scope, task.epoch, task.readAt)
      && st'.stored == st.stored && st'.archived == st.archived
  {
  }

  lemma TopicAsksGroup(st: State, t: Scope)
    requires t !in st.mem.denied && t !in st.mem.cache && t.thread != "" && t !in st.stored
    ensures var n := st.nextId;
      var st' := Run(st, [Start(Ingest(t, true)), Advance(n, true), Advance(n, true)]);
      && n in st'.tasks && st'.tasks[n] == LookingGroup(t, EpochOf(st.mem.epoch, t.channel), st.now)
      && st'.stored == st.stored && st'.archived == st.archived
  {
    var n, go := st.nextId, Advance(st.nextId, true);
    TopicArrives(st, t);
    var st1 := Apply(st, Start(Ingest(t, true)));
    TopicReads(st1, n);
    TopicTurnsToGroup(Apply(st1, go), n);
    RunThree(st, Start(Ingest(t, true)), go, go);
  }

  lemma GroupAnswers(st: State, n: nat)
    requires n in st.tasks && st.tasks[n].LookingGroup?
    requires Lookup(st.stored, st.tasks[n].scope.Group()) == Some(true)
    ensures Run(st, [Advance(n, true), Advance(n, true)]).archived
            == st.archived + [(n, st.tasks[n].scope)]
  {
    var go, task := Advance(n, true), st.tasks[n];
    var st1 := Apply(st, go);
    assert st1.tasks[n] == LookedGroup(task.scope, task.epoch, task.readAt, Some(true));
    assert ReadEffect(st1, st1.tasks[n], true) == Decided(st1, st1.tasks[n], true);
    assert [go, go][1..] == [go] && [go][1..] == [];
    assert Run(st1, [go]) == Apply(st1, go);
  }

  /** A message of an undecided topic reads its own profile, then its group's, and inherits. */
  lemma TopicInherits(st: State, t: Scope) returns (post: seq<Action>)
    requires t !in st.mem.denied && t !in st.mem.cache && t.thread != ""
    requires t !in st.stored && Lookup(st.stored, t.Group()) == Some(true)
    ensures AllQuiet(post, t) && Run(st, post).archived == st.archived + [(st.nextId, t)]
  {
    var n := st.nextId;
    var ask := [Start(Ingest(t, true)), Advance(n, true), Advance(n, true)];
    var answer := [Advance(n, true), Advance(n, true)];
    TopicAsksGroup(st, t);
    GroupAnswers(Run(st, ask), n);
    RunSplit(st, ask, answer);
    post := ask + answer;
    assert Quiet(Start(Ingest(t, true)), t);
  }

  /** Whoever holds the lock loses it when the store fails, and nothing else changes. */
  lemma LockFreed(st: State) returns (freed: seq<Action>)
    requires Inv(st)
    ensures forall a :: a in freed ==> a.Fail?
    ensures var st' := Run(st, freed);
      st'.lock == None && SameMemory(st, st')
  {
    if st.lock == None {
      freed := [];
    } else {
      var holder := st.lock.value;
      assert TaskOk(st.tasks[holder], holder, st.mem, st.lock);
      freed := [Fail(holder)];
      assert freed[1..] == [] && Run(st, freed) == Apply(st, Fail(holder));
    }
  }

  /** Only the lock and tasks may differ. */
  ghost predicate SameMemory(st: State, after: State) {
    && after.mem == st.mem && after.stored == st.stored && after.archived == st.archived
    && after.nextId == st.nextId && after.now == st.now
  }

  /** A waiter takes the free lock and fails at its first await, or finds nothing to do. */
  lemma WaiterFails(st: State, id: nat)
    requires st.lock == None && id in st.tasks && st.tasks[id].Waits()
    ensures var after := Run(st, [Advance(id, true), Fail(id)]);
      after.lock == None && SameMemory(st, after) && after.tasks == st.tasks[id := Done]
  {
    RunTwo(st, Advance(id, true), Fail(id));
    if st.tasks[id].RetryWait? {
      RetryMoves(st, id);
    } else {
      EnableMoves(st, id);
    }
  }

  /** The lock's waiters take it in the order they came, and each fails: nobody is left in the queue. */
  lemma {:induction false} WaitersFail(st: State, n: nat) returns (failed: seq<Action>)
    requires st.lock == None
    ensures forall a :: a in failed ==> a.Advance? || a.Fail?
    ensures var after := Run(st, failed);
      && after.lock == None && SameMemory(st, after) && after.tasks.Keys == st.tasks.Keys
      && forall id :: id in after.tasks && id < n ==> !after.tasks[id].Waits()
  {
    if n == 0 {
      failed := [];
    } else {
      failed := WaitersFail(st, n - 1);
      var after := Run(st, failed);
      if n - 1 in after.tasks && after.tasks[n - 1].Waits() {
        WaiterFails(after, n - 1);
        RunSplit(st, failed, [Advance(n - 1, true), Fail(n - 1)]);
        failed := failed + [Advance(n - 1, true), Fail(n - 1)];
      }
    }
  }

  /** The store fails for the lock's holder and then for everyone queued behind it. */
  lemma QueueCleared(st: State) returns (cleared: seq<Action>)
    requires Inv(st)
    ensures forall a :: a in cleared ==> a.Advance? || a.Fail?
    ensures var after := Run(st, cleared);
      && after.lock == None && SameMemory(st, after)
      && forall id :: id in after.tasks ==> !after.tasks[id].Waits()
  {
    var freed := LockFreed(st);
    var st1 := Run(st, freed);
    InvRun(st, freed);
    var failed := WaitersFail(st1, st.nextId);
    RunSplit(st, freed, failed);
    cleared := freed + failed;
  }

  /** On a free lock: the retry lifts, and a message is archived. */
  lemma RetryThenMessage(st: State, t: Scope) returns (lapse: seq<Action>)
    requires st.lock == None && t in st.mem.denied && t.thread != ""
    requires t !in st.stored && Lookup(st.stored, t.Group()) == Some(true)
    ensures AllQuiet(lapse, t) && Run(st, lapse).archived == st.archived + [(st.nextId + 1, t)]
  {
    var retry := UndecidedRetryLifts(st, t);
    var post := TopicInherits(Run(st, retry), t);
    RunSplit(st, retry, post);
    lapse := retry + post;
  }

  /** A tombstoned topic that inherits a yes: the lock's queue clears, the retry lifts, a message is archived. */
  lemma LapseRun(st: State, t: Scope) returns (future: seq<Action>)
    requires Inv(st) && t in st.mem.denied && t.thread != ""
    requires t !in st.stored && Lookup(st.stored, t.Group()) == Some(true)
    ensures AllQuiet(future, t) && Run(st, future).archived == st.archived + [(st.nextId + 1, t)]
  {
    var cleared := QueueCleared(st);
    var lapse := RetryThenMessage(Run(st, cleared), t);
    RunSplit(st, cleared, lapse);
    future := cleared + lapse;
  }

  /** Whatever a tombstone lacks, some interleaving lets a later message through. */
  lemma TombstoneFails(st: State, t: Scope) returns (future: seq<Action>)
    requires Inv(st) && !TombstoneHolds(st, t)
    ensures AllQuiet(future, t) && !NothingLate(Run(Apply(st, Deny(t)), future), t, st.nextId)
  {
    var own := Lookup(st.stored, t);
    if own.Some? {
      assert if own.value then own == Some(true) else own == Some(false);
      var id :| id in st.tasks && st.tasks[id].Lifts(t);
      RelapseArchives(st, id, t);
      future := Relapse(st, id, t);
    } else {
      assert t.thread == "" ==> t.Group() == t;
      var denied := Apply(st, Deny(t));
      InvStep(st, Deny(t));
      future := LapseRun(denied, t);
      var end := Run(denied, future);
      assert end.archived[|end.archived| - 1] == (st.nextId + 1, t);
    }
  }

  /**
   `deny_scope`, for every scope and from every reachable state: later messages stay out of the
   archive under every interleaving without an enable exactly when `TombstoneHolds`.
   */
  lemma TombstoneExact(st: State, t: Scope)
    requires Reachable(st) && NoGrants(st.tasks, t)
    ensures StaysRevoked(Apply(st, Deny(t)), t) <==> TombstoneHolds(st, t)
  {
    ReachableInv(st);
    var denied := Apply(st, Deny(t));
    InvStep(st, Deny(t));
    if TombstoneHolds(st, t) {
      DeniedIsSafe(st, t);
      forall future | AllQuiet(future, t)
        ensures NothingLate(Run(denied, future), t, denied.nextId)
      {
        SafeRun(denied, future, t, st.nextId);
      }
    } else {
      var future := TombstoneFails(st, t);
      assert !NothingLate(Run(denied, future), t, denied.nextId);
    }
  }

  /** For a group the condition reads: its yes, if any, has no stale lift. */
  lemma GroupTombstoneExact(st: State, t: Scope)
    requires Reachable(st) && NoGrants(st.tasks, t) && t.thread == ""
    ensures StaysRevoked(Apply(st, Deny(t)), t) <==> (Lookup(st.stored, t) == Some(true) ==> NoLifts(st.tasks, t))
  {
    TombstoneExact(st, t);
  }

  /** For a topic: its own no; its own yes without a stale lift; or no decision and no yes to inherit. */
  lemma TopicTombstoneExact(st: State, t: Scope)
    requires Reachable(st) && NoGrants(st.tasks, t) && t.thread != ""
    ensures StaysRevoked(Apply(st, Deny(t)), t) <==>
      match Lookup(st.stored, t)
      case Some(enabled) => enabled ==> NoLifts(st.tasks, t)
      case None => Lookup(st.stored, t.Group()) != Some(true)
  {
    TombstoneExact(st, t);
  }

  /** The shortest case: the topic of a group that is on, denied before anything else happened. */
  lemma TopicTombstoneLapses(t: Scope, now: int, ttl: int)
    requires t.thread != ""
    ensures var st := Init(map[t.Group() := true], now, ttl);
      Reachable(st) && NoGrants(st.tasks, t) && !StaysRevoked(Apply(st, Deny(t)), t)
  {
    var st := Init(map[t.Group() := true], now, ttl);
    assert st == Run(st, []);
    TopicTombstoneExact(st, t);
  }
}
