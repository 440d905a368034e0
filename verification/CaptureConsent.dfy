/** Enabling: what a completed enable leaves standing, and what a failed one leaves in place. */
module CaptureConsent {
  import opened Basics
  import opened Capture

  predicate NotSwitchedOff(a: Action, t: Scope) {
    a.Start? && a.job.SwitchOff? ==> a.job.scope != t
  }

  /** Neither a tombstone nor an explicit disable of `t`. */
  predicate KeepsConsent(a: Action, t: Scope) {
    a != Deny(t) && NotSwitchedOff(a, t)
  }

  ghost predicate NoSwitchOff(tasks: map<nat, Task>, t: Scope) {
    forall id :: id in tasks ==> !tasks[id].SwitchesOff(t)
  }

  /** The enable has written and still holds the lock, or is over. */
  ghost predicate Announced(st: State, id: nat, t: Scope) {
    && id in st.tasks && NoSwitchOff(st.tasks, t)
    && (st.tasks[id] == Done || (st.tasks[id] == Enabled(t) && Lookup(st.stored, t) == Some(true)))
  }

  ghost predicate Consented(st: State, t: Scope) {
    && Lookup(st.stored, t) == Some(true) && t !in st.mem.denied
    && NoSwitchOff(st.tasks, t)
    && forall id :: id in st.tasks ==> !(st.tasks[id].Retrying() && st.tasks[id].scope == t)
  }

  lemma AnnouncedStep(st: State, a: Action, id: nat, t: Scope)
    requires Inv(st) && Announced(st, id, t) && NotSwitchedOff(a, t)
    ensures Announced(Apply(st, a), id, t)
  {
    match a
    case Start(job) => StartQuiet(st, job, t);
    case Advance(j, pass) =>
      if j in st.tasks {
        AdvanceFrame(st, j, st.tasks[j], pass);
        AnnouncedMerge(st, j, AdvanceEffect(st, j, st.tasks[j], pass), id, t);
      }
    case Fail(j) =>
      if j in st.tasks {
        FailFrame(st, st.tasks[j]);
        AnnouncedMerge(st, j, FailEffect(st, st.tasks[j]), id, t);
      }
    case Deny(_) =>
    case Wait(_) =>
  }

  lemma AnnouncedMerge(st: State, j: nat, e: Effect, id: nat, t: Scope)
    requires Inv(st) && Announced(st, id, t)
    requires j in st.tasks && Frame(st, st.tasks[j], e)
    requires j == id ==> e.task == Done
    ensures Announced(Merged(st, j, e), id, t)
  {
    assert TaskOk(st.tasks[j], j, st.mem, st.lock);
    assert TaskOk(st.tasks[id], id, st.mem, st.lock);
    assert !st.tasks[j].SwitchesOff(t);
  }

  lemma StartQuiet(st: State, job: Job, t: Scope)
    requires NotSwitchedOff(Start(job), t)
    ensures var e := StartEffect(st, job);
      && e.stored == st.stored && e.mem == st.mem && e.lock == st.lock
      && !e.task.SwitchesOff(t) && !e.task.Retrying()
  {
  }

  lemma {:induction false} AnnouncedRun(st: State, actions: seq<Action>, id: nat, t: Scope)
    requires Inv(st) && Announced(st, id, t)
    requires forall k :: 0 <= k < |actions| ==> NotSwitchedOff(actions[k], t)
    ensures Announced(Run(st, actions), id, t)
    decreases |actions|
  {
    if actions != [] {
      assert NotSwitchedOff(actions[0], t);
      InvStep(st, actions[0]);
      AnnouncedStep(st, actions[0], id, t);
      AnnouncedRun(Apply(st, actions[0]), actions[1..], id, t);
    }
  }

  lemma ConsentedStep(st: State, a: Action, t: Scope)
    requires Consented(st, t) && KeepsConsent(a, t)
    ensures Consented(Apply(st, a), t)
  {
    match a
    case Start(job) => StartQuiet(st, job, t);
    case Advance(j, pass) =>
      if j in st.tasks {
        AdvanceFrame(st, j, st.tasks[j], pass);
        ConsentedMerge(st, j, AdvanceEffect(st, j, st.tasks[j], pass), t);
      }
    case Fail(j) =>
      if j in st.tasks {
        FailFrame(st, st.tasks[j]);
        ConsentedMerge(st, j, FailEffect(st, st.tasks[j]), t);
      }
    case Deny(_) =>
    case Wait(_) =>
  }

  lemma ConsentedMerge(st: State, j: nat, e: Effect, t: Scope)
    requires Consented(st, t) && j in st.tasks && Frame(st, st.tasks[j], e)
    ensures Consented(Merged(st, j, e), t)
  {
    assert !st.tasks[j].SwitchesOff(t);
    assert !(st.tasks[j].Retrying() && st.tasks[j].scope == t);
  }

  lemma {:induction false} ConsentedRun(st: State, actions: seq<Action>, t: Scope)
    requires Consented(st, t)
    requires forall k :: 0 <= k < |actions| ==> KeepsConsent(actions[k], t)
    ensures Consented(Run(st, actions), t)
    decreases |actions|
  {
    if actions != [] {
      assert KeepsConsent(actions[0], t);
      ConsentedStep(st, actions[0], t);
      ConsentedRun(Apply(st, actions[0]), actions[1..], t);
    }
  }

  lemma EnableAnnounces(st: State, id: nat, t: Scope)
    requires id in st.tasks && st.tasks[id] == Enabling(t) && NoSwitchOff(st.tasks, t)
    ensures Announced(Apply(st, Advance(id, true)), id, t)
  {
    EnableMoves(st, id);
  }

  lemma EnableCompletes(st: State, id: nat, t: Scope)
    requires Inv(st) && Announced(st, id, t) && st.tasks[id] == Enabled(t)
    ensures Consented(Apply(st, Advance(id, true)), t)
  {
    EnableMoves(st, id);
    var done := Apply(st, Advance(id, true));
    forall j | j in done.tasks
      ensures !(done.tasks[j].Retrying() && done.tasks[j].scope == t)
    {
      if j != id {
        assert TaskOk(st.tasks[j], j, st.mem, st.lock);
        assert TaskOk(st.tasks[id], id, st.mem, st.lock);
      }
    }
  }

  /**
   `enable_scope`, from the landing of its write: once it completes, no tombstone retry, however
   long it was pending and wherever it was suspended, turns the scope off or denies it again.
   */
  lemma EnableStands(st: State, id: nat, t: Scope, middle: seq<Action>, future: seq<Action>)
    requires Reachable(st) && id in st.tasks && st.tasks[id] == Enabling(t)
    requires NoSwitchOff(st.tasks, t)
    requires forall k :: 0 <= k < |middle| ==> NotSwitchedOff(middle[k], t)
    requires forall k :: 0 <= k < |future| ==> KeepsConsent(future[k], t)
    requires var waiting := Run(Apply(st, Advance(id, true)), middle);
      id in waiting.tasks && waiting.tasks[id] == Enabled(t)
    ensures var end := Run(Apply(Run(Apply(st, Advance(id, true)), middle), Advance(id, true)), future);
      Lookup(end.stored, t) == Some(true) && t !in end.mem.denied
  {
    ReachableInv(st);
    EnableAnnounces(st, id, t);
    var landed := Apply(st, Advance(id, true));
    InvStep(st, Advance(id, true));
    AnnouncedRun(landed, middle, id, t);
    InvRun(landed, middle);
    var waiting := Run(landed, middle);
    EnableCompletes(waiting, id, t);
    var done := Apply(waiting, Advance(id, true));
    ConsentedRun(done, future, t);
  }

  /** In the critical section of `enable_scope`, the tombstone still in place. */
  ghost predicate Guarded(st: State, id: nat, t: Scope) {
    && id in st.tasks && NoSwitchOff(st.tasks, t)
    && (st.tasks[id] == Done
        || ((st.tasks[id] == Enabling(t) || st.tasks[id] == Enabled(t)) && t in st.mem.denied))
  }

  /** Only a holder of the lock, or an explicit disable of the scope, can lift a tombstone. */
  lemma OnlyHoldersLift(st: State, id: nat, task: Task, pass: bool, t: Scope)
    requires t in st.mem.denied && !task.HoldsLock() && !task.SwitchesOff(t)
    ensures t in AdvanceEffect(st, id, task, pass).mem.denied && t in FailEffect(st, task).mem.denied
  {
  }

  lemma GuardedMerge(st: State, j: nat, e: Effect, id: nat, t: Scope)
    requires Inv(st) && Guarded(st, id, t) && j in st.tasks && Frame(st, st.tasks[j], e)
    requires j != id && t in st.mem.denied && !st.tasks[j].HoldsLock() ==> t in e.mem.denied
    requires j == id ==> e.task == Done || (e.task == Enabled(t) && e.mem == st.mem)
    ensures Guarded(Merged(st, j, e), id, t)
  {
    assert TaskOk(st.tasks[j], j, st.mem, st.lock);
    assert TaskOk(st.tasks[id], id, st.mem, st.lock);
    assert !st.tasks[j].SwitchesOff(t);
  }

  lemma GuardedStep(st: State, a: Action, id: nat, t: Scope)
    requires Inv(st) && Guarded(st, id, t) && NotSwitchedOff(a, t)
    ensures Guarded(Apply(st, a), id, t)
  {
    match a
    case Start(job) => StartQuiet(st, job, t);
    case Advance(j, pass) =>
      if j in st.tasks {
        AdvanceFrame(st, j, st.tasks[j], pass);
        assert !st.tasks[j].SwitchesOff(t);
        if t in st.mem.denied && !st.tasks[j].HoldsLock() {
          OnlyHoldersLift(st, j, st.tasks[j], pass, t);
        }
        GuardedMerge(st, j, AdvanceEffect(st, j, st.tasks[j], pass), id, t);
      }
    case Fail(j) =>
      if j in st.tasks {
        FailFrame(st, st.tasks[j]);
        assert !st.tasks[j].SwitchesOff(t);
        if t in st.mem.denied && !st.tasks[j].HoldsLock() {
          OnlyHoldersLift(st, j, st.tasks[j], true, t);
        }
        GuardedMerge(st, j, FailEffect(st, st.tasks[j]), id, t);
      }
    case Deny(_) =>
    case Wait(_) =>
  }

  lemma {:induction false} GuardedRun(st: State, actions: seq<Action>, id: nat, t: Scope)
    requires Inv(st) && Guarded(st, id, t)
    requires forall k :: 0 <= k < |actions| ==> NotSwitchedOff(actions[k], t)
    ensures Guarded(Run(st, actions), id, t)
    decreases |actions|
  {
    if actions != [] {
      assert NotSwitchedOff(actions[0], t);
      InvStep(st, actions[0]);
      GuardedStep(st, actions[0], id, t);
      GuardedRun(Apply(st, actions[0]), actions[1..], id, t);
    }
  }

  lemma EnableFails(st: State, id: nat, t: Scope)
    requires id in st.tasks && (st.tasks[id] == Enabling(t) || st.tasks[id] == Enabled(t))
    ensures var failed := Apply(st, Fail(id));
      && id in failed.tasks && failed.tasks[id] == Done && failed.mem == st.mem && failed.stored == st.stored
  {
  }

  /**
   A failed enable leaves its scope's tombstone in place: from the moment it takes the lock to its
   failure, wherever that comes and whether or not its write landed, no interleaving lifts it.
   */
  lemma FailedEnableKeepsTombstones(st: State, id: nat, t: Scope, middle: seq<Action>)
    requires Reachable(st) && id in st.tasks && st.tasks[id] == Enabling(t)
    requires t in st.mem.denied && NoSwitchOff(st.tasks, t)
    requires forall k :: 0 <= k < |middle| ==> NotSwitchedOff(middle[k], t)
    requires id in Run(st, middle).tasks && Run(st, middle).tasks[id] != Done
    ensures var late := Run(st, middle);
      var failed := Apply(late, Fail(id));
      && id in failed.tasks && failed.tasks[id] == Done
      && t in failed.mem.denied && failed.mem == late.mem && failed.stored == late.stored
  {
    ReachableInv(st);
    GuardedRun(st, middle, id, t);
    EnableFails(Run(st, middle), id, t);
  }
}
