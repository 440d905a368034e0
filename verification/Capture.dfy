/**
 Consent for archiving: the TTL cache with per-channel epochs, the fail-closed
 tombstones and the transition lock.

 A `State` is everything the event loop can observe between two awaits; an
 `Action` is one segment between two awaits of one task.  `Run` folds any
 sequence of actions, so a statement over all sequences is a statement over
 every interleaving.
 */
module Capture {
  import opened Basics

  datatype Scope = Scope(platform: string, channel: string, thread: string) {
    /** The group whose default an undecided topic inherits. */
    function Group(): Scope {
      Scope(platform, channel, "")
    }
  }

  datatype Cached = Cached(enabled: bool, validUntil: int)

  /** The service's own fields. */
  datatype Memory = Memory(cache: map<Scope, Cached>, denied: set<Scope>, epoch: map<string, nat>)

  function EpochOf(epoch: map<string, nat>, channel: string): nat {
    if channel in epoch then epoch[channel] else 0
  }

  function Forgotten(m: Memory, s: Scope): Memory {
    Memory(
      if s.thread != "" then m.cache - {s}
      else map k | k in m.cache && k.channel != s.channel :: m.cache[k],
      m.denied,
      m.epoch[s.channel := EpochOf(m.epoch, s.channel) + 1])
  }

  function Denied(m: Memory, s: Scope): Memory {
    Forgotten(m.(denied := m.denied + {s}), s)
  }

  function Lifted(m: Memory, s: Scope): Memory {
    Forgotten(m.(denied := m.denied - {s}), s)
  }

  /** What an arriving message finds before its first await. */
  datatype Admission = Tombstoned | Hit(enabled: bool) | Miss(epoch: nat)

  function Admit(m: Memory, s: Scope, now: int): Admission {
    if s in m.denied then Tombstoned
    else if s in m.cache && m.cache[s].validUntil > now then Hit(m.cache[s].enabled)
    else Miss(EpochOf(m.epoch, s.channel))
  }

  /** The tail of the policy read: cache the decision unless an invalidation landed meanwhile. */
  function Remembered(m: Memory, s: Scope, epoch: nat, validUntil: int, enabled: bool): Memory {
    if EpochOf(m.epoch, s.channel) == epoch
    then m.(cache := m.cache[s := Cached(enabled, validUntil)])
    else m
  }

  // ---------------------------------------------------------------- the service object

  /** The fields as the source updates them, one method per segment between awaits. */
  class CaptureService {
    var enabledCache: map<Scope, Cached>
    var denied: set<Scope>
    var epochs: map<string, nat>
    const cacheTtl: int

    ghost function View(): Memory
      reads this
    {
      Memory(enabledCache, denied, epochs)
    }

    constructor (cacheTtl: int)
      ensures View() == Memory(map[], {}, map[]) && this.cacheTtl == cacheTtl
    {
      enabledCache, denied, epochs := map[], {}, map[];
      this.cacheTtl := cacheTtl;
    }

    method ForgetScope(scope: Scope)
      modifies this
      ensures View() == Forgotten(old(View()), scope)
    {
      epochs := epochs[scope.channel := EpochOf(epochs, scope.channel) + 1];
      if scope.thread != "" {
        enabledCache := enabledCache - {scope};
        return;
      }
      ghost var before := enabledCache;
      var keys := set k | k in enabledCache && k.channel == scope.channel;
      while keys != {}
        invariant denied == old(denied)
        invariant epochs == old(epochs)[scope.channel := EpochOf(old(epochs), scope.channel) + 1]
        invariant keys <= before.Keys && forall k :: k in keys ==> k.channel == scope.channel
        invariant enabledCache == map k | k in before && (k in keys || k.channel != scope.channel) :: before[k]
        decreases keys
      {
        var key :| key in keys;
        enabledCache, keys := enabledCache - {key}, keys - {key};
      }
    }

    method DenyScope(scope: Scope)
      modifies this
      ensures View() == Denied(old(View()), scope)
    {
      denied := denied + {scope};
      ForgetScope(scope);
    }

    /** `clear_denial`, and the tail of a tombstone retry or of `enable_scope`. */
    method LiftDenial(scope: Scope)
      modifies this
      ensures View() == Lifted(old(View()), scope)
    {
      denied := denied - {scope};
      ForgetScope(scope);
    }

    /** `ingest` up to its first await. */
    method Arrive(scope: Scope, now: int) returns (admission: Admission)
      ensures admission == Admit(View(), scope, now)
      ensures admission == Tombstoned <==> scope in denied
      ensures scope !in denied && scope in enabledCache && now < enabledCache[scope].validUntil ==>
        admission == Hit(enabledCache[scope].enabled)
    {
      if scope in denied {
        return Tombstoned;
      }
      if scope in enabledCache {
        var cached := enabledCache[scope];
        if cached.validUntil > now {
          return Hit(cached.enabled);
        }
      }
      admission := Miss(EpochOf(epochs, scope.channel));
    }

    /** `_enabled` from its last await to its return. */
    method Conclude(scope: Scope, epoch: nat, readAt: int, decision: Option<bool>) returns (enabled: bool)
      modifies this
      ensures enabled <==> decision == Some(true)
      ensures View() == Remembered(old(View()), scope, epoch, readAt + cacheTtl, enabled)
    {
      enabled := decision == Some(true);
      if EpochOf(epochs, scope.channel) == epoch {
        enabledCache := enabledCache[scope := Cached(enabled, readAt + cacheTtl)];
      }
    }
  }

  // ---------------------------------------------------------------- tasks and steps

  /** Where a task is suspended. A store read or write lands at some moment of its await. */
  datatype Task =
    // ingest -> _enabled
    | Looking(scope: Scope, epoch: nat, readAt: int)
    | Looked(scope: Scope, epoch: nat, readAt: int, found: Option<bool>)
    | LookingGroup(scope: Scope, epoch: nat, readAt: int)
    | LookedGroup(scope: Scope, epoch: nat, readAt: int, found: Option<bool>)
    // _retry_disable
    | RetryWait(scope: Scope)
    | RetryReading(scope: Scope)
    | RetryRead(scope: Scope, found: Option<bool>)
    | RetryWriting(scope: Scope)
    | RetryWritten(scope: Scope)
    // enable_scope
    | EnableWait(scope: Scope)
    | Enabling(scope: Scope)
    | Enabled(scope: Scope)
    // set_capture, then forget_scope or clear_denial
    | SwitchingOn(scope: Scope)
    | SwitchedOn(scope: Scope)
    | SwitchingOff(scope: Scope, lift: bool)
    | SwitchedOff(scope: Scope, lift: bool)
    | Done
  {
    predicate Reader() {
      Looking? || Looked? || LookingGroup? || LookedGroup?
    }

    predicate HoldsLock() {
      RetryReading? || RetryRead? || RetryWriting? || RetryWritten? || Enabling? || Enabled?
    }

    /** Queued for the lock. */
    predicate Waits() {
      RetryWait? || EnableWait?
    }

    /** Inside the critical section of a tombstone retry. */
    predicate Retrying() {
      RetryReading? || RetryRead? || RetryWriting? || RetryWritten?
    }

    /** An enable that is still under way. */
    predicate Granting() {
      EnableWait? || Enabling? || Enabled? || SwitchingOn? || SwitchedOn?
    }

    /** An explicit disable that is still under way. */
    predicate Switching() {
      SwitchingOff? || SwitchedOff?
    }

    predicate Grants(s: Scope) {
      Granting() && scope == s
    }

    predicate SwitchesOff(s: Scope) {
      Switching() && scope == s
    }

    /** Will lift the tombstone of `s` without writing `False` again. */
    predicate Lifts(s: Scope) {
      || (SwitchedOff? && lift && scope == s)
      || (RetryRead? && found != Some(true) && scope == s)
      || (RetryWritten? && scope == s)
    }
  }

  datatype Job =
    | Ingest(scope: Scope, pass: bool) // `pass`: the per-scope ceiling admits it
    | Converge(scope: Scope)
    | Enable(scope: Scope)
    | SwitchOn(scope: Scope)
    | SwitchOff(scope: Scope, lift: bool)

  datatype Action =
    | Start(job: Job)
    | Advance(id: nat, pass: bool)
    | Fail(id: nat) // the store raises StorageError; a write may have landed all the same
    | Deny(scope: Scope)
    | Wait(ticks: nat)

  datatype State = State(
    mem: Memory,
    stored: map<Scope, bool>, // capture_enabled; absent: never decided
    tasks: map<nat, Task>,
    nextId: nat,
    lock: Option<nat>,
    now: int,
    ttl: int,
    archived: seq<(nat, Scope)>) // which task reached archive.store, for which scope

  function Init(stored: map<Scope, bool>, now: int, ttl: int): State {
    State(Memory(map[], {}, map[]), stored, map[], 0, None, now, ttl, [])
  }

  /** What one segment changes: the shared fields, the lock, and its own task. */
  datatype Effect = Effect(
    mem: Memory,
    stored: map<Scope, bool>,
    lock: Option<nat>,
    task: Task,
    archives: Option<Scope>)

  function Merged(st: State, id: nat, e: Effect): State {
    st.(mem := e.mem,
        stored := e.stored,
        lock := e.lock,
        tasks := st.tasks[id := e.task],
        archived := if e.archives.Some? then st.archived + [(id, e.archives.value)] else st.archived)
  }

  function Becomes(st: State, task: Task): Effect {
    Effect(st.mem, st.stored, st.lock, task, None)
  }

  /** The part of `ingest` after the policy answered. */
  function Attempted(st: State, s: Scope, enabled: bool, pass: bool): Effect {
    Becomes(st, Done).(archives := if enabled && pass then Some(s) else None)
  }

  function StartEffect(st: State, job: Job): Effect {
    match job
    case Ingest(s, pass) =>
      (match Admit(st.mem, s, st.now)
       case Tombstoned => Becomes(st, RetryWait(s))
       case Hit(enabled) => Attempted(st, s, enabled, pass)
       case Miss(epoch) => Becomes(st, Looking(s, epoch, st.now)))
    case Converge(s) => Becomes(st, RetryWait(s))
    case Enable(s) => Becomes(st, EnableWait(s))
    case SwitchOn(s) => Becomes(st, SwitchingOn(s))
    case SwitchOff(s, lift) => Becomes(st, SwitchingOff(s, lift))
  }

  function Decided(st: State, task: Task, pass: bool): Effect
    requires task.Looked? || task.LookedGroup?
  {
    var enabled := task.found == Some(true);
    Attempted(st, task.scope, enabled, pass).(
      mem := Remembered(st.mem, task.scope, task.epoch, task.readAt + st.ttl, enabled))
  }

  /** `_enabled`: one await done. */
  function ReadEffect(st: State, task: Task, pass: bool): Effect
    requires task.Reader()
  {
    match task
    case Looking(s, e, t) => Becomes(st, Looked(s, e, t, Lookup(st.stored, s)))
    case Looked(s, e, t, found) =>
      if found == None && s.thread != "" then Becomes(st, LookingGroup(s, e, t))
      else Decided(st, task, pass)
    case LookingGroup(s, e, t) => Becomes(st, LookedGroup(s, e, t, Lookup(st.stored, s.Group())))
    case LookedGroup(_, _, _, _) => Decided(st, task, pass)
  }

  /** Leaves the critical section after a transition became durable. */
  function Settles(st: State, s: Scope): Effect {
    Becomes(st, Done).(mem := Lifted(st.mem, s), lock := None)
  }

  /** `_retry_disable`: one await done. */
  function RetryEffect(st: State, id: nat, task: Task): Effect
    requires task.RetryWait? || task.Retrying()
  {
    match task
    case RetryWait(s) =>
      if st.lock != None then Becomes(st, task)
      else if s !in st.mem.denied then Becomes(st, Done)
      else Becomes(st, RetryReading(s)).(lock := Some(id))
    case RetryReading(s) => Becomes(st, RetryRead(s, Lookup(st.stored, s)))
    case RetryRead(s, found) => if found == Some(true) then Becomes(st, RetryWriting(s)) else Settles(st, s)
    case RetryWriting(s) => Becomes(st, RetryWritten(s)).(stored := st.stored[s := false])
    case RetryWritten(s) => Settles(st, s)
  }

  /** `enable_scope`: one await done. */
  function EnableEffect(st: State, id: nat, task: Task): Effect
    requires task.EnableWait? || task.Enabling? || task.Enabled?
  {
    match task
    case EnableWait(s) =>
      if st.lock != None then Becomes(st, task) else Becomes(st, Enabling(s)).(lock := Some(id))
    case Enabling(s) => Becomes(st, Enabled(s)).(stored := st.stored[s := true])
    case Enabled(s) => Settles(st, s)
  }

  /** `set_capture` and the invalidation its caller makes next: one await done. */
  function SwitchEffect(st: State, task: Task): Effect
    requires task.SwitchingOn? || task.SwitchedOn? || task.SwitchingOff? || task.SwitchedOff?
  {
    match task
    case SwitchingOn(s) => Becomes(st, SwitchedOn(s)).(stored := st.stored[s := true])
    case SwitchedOn(s) => Becomes(st, Done).(mem := Forgotten(st.mem, s))
    case SwitchingOff(s, lift) => Becomes(st, SwitchedOff(s, lift)).(stored := st.stored[s := false])
    case SwitchedOff(s, lift) =>
      Becomes(st, Done).(mem := if lift then Lifted(st.mem, s) else Forgotten(st.mem, s))
  }

  function AdvanceEffect(st: State, id: nat, task: Task, pass: bool): Effect {
    if task.Reader() then ReadEffect(st, task, pass)
    else if task.RetryWait? || task.Retrying() then RetryEffect(st, id, task)
    else if task.EnableWait? || task.Enabling? || task.Enabled? then EnableEffect(st, id, task)
    else if task.Done? then Becomes(st, Done)
    else SwitchEffect(st, task)
  }

  /** The store raises `StorageError` at the task's await. */
  function FailEffect(st: State, task: Task): Effect {
    if task.Reader() then Becomes(st, Done) // fail closed, and never cache an outage
    else if task.HoldsLock() then Becomes(st, Done).(lock := None)
    else if task.SwitchingOff? || task.SwitchedOff? then
      Becomes(st, Done).(mem := Denied(st.mem, task.scope))
    else if task.SwitchingOn? || task.SwitchedOn? then Becomes(st, Done)
    else Becomes(st, task) // waiting for the lock: nothing to fail
  }

  function Apply(st: State, a: Action): State {
    match a
    case Start(job) => Merged(st, st.nextId, StartEffect(st, job)).(nextId := st.nextId + 1)
    case Advance(id, pass) =>
      if id in st.tasks then Merged(st, id, AdvanceEffect(st, id, st.tasks[id], pass)) else st
    case Fail(id) => if id in st.tasks then Merged(st, id, FailEffect(st, st.tasks[id])) else st
    case Deny(s) => st.(mem := Denied(st.mem, s))
    case Wait(d) => st.(now := st.now + d)
  }

  function Run(st: State, actions: seq<Action>): State
    decreases |actions|
  {
    if actions == [] then st else Run(Apply(st, actions[0]), actions[1..])
  }

  // ---------------------------------------------------------------- what every run keeps

  ghost predicate TaskOk(task: Task, id: nat, mem: Memory, lock: Option<nat>) {
    && (task.Reader() ==> task.epoch <= EpochOf(mem.epoch, task.scope.channel))
    && (task.HoldsLock() <==> lock == Some(id))
  }

  /** No read has a snapshot from the future, and exactly the lock's holder is in a critical section. */
  ghost predicate Inv(st: State) {
    && (forall id :: id in st.tasks ==> id < st.nextId && TaskOk(st.tasks[id], id, st.mem, st.lock))
    && (st.lock.Some? ==> st.lock.value in st.tasks)
    && (forall k :: 0 <= k < |st.archived| ==> st.archived[k].0 < st.nextId)
  }

  ghost predicate EpochsGrow(m: Memory, n: Memory) {
    forall ch :: EpochOf(m.epoch, ch) <= EpochOf(n.epoch, ch)
  }

  ghost predicate EffectOk(st: State, id: nat, e: Effect) {
    && EpochsGrow(st.mem, e.mem)
    && TaskOk(e.task, id, e.mem, e.lock)
    && (e.lock == st.lock
        || (st.lock == None && e.lock == Some(id))
        || (st.lock == Some(id) && e.lock == None))
  }

  lemma StartOk(st: State, job: Job)
    requires Inv(st)
    ensures EffectOk(st, st.nextId, StartEffect(st, job))
  {
  }

  lemma ReadOk(st: State, id: nat, task: Task, pass: bool)
    requires task.Reader() && TaskOk(task, id, st.mem, st.lock)
    ensures EffectOk(st, id, ReadEffect(st, task, pass))
  {
  }

  lemma RetryOk(st: State, id: nat, task: Task)
    requires task.RetryWait? || task.Retrying()
    requires TaskOk(task, id, st.mem, st.lock)
    ensures EffectOk(st, id, RetryEffect(st, id, task))
  {
  }

  lemma EnableOk(st: State, id: nat, task: Task)
    requires task.EnableWait? || task.Enabling? || task.Enabled?
    requires TaskOk(task, id, st.mem, st.lock)
    ensures EffectOk(st, id, EnableEffect(st, id, task))
  {
  }

  lemma SwitchOk(st: State, id: nat, task: Task)
    requires task.SwitchingOn? || task.SwitchedOn? || task.SwitchingOff? || task.SwitchedOff?
    requires TaskOk(task, id, st.mem, st.lock)
    ensures EffectOk(st, id, SwitchEffect(st, task))
  {
  }

  lemma AdvanceOk(st: State, id: nat, task: Task, pass: bool)
    requires TaskOk(task, id, st.mem, st.lock)
    ensures EffectOk(st, id, AdvanceEffect(st, id, task, pass))
  {
    if task.Reader() {
      ReadOk(st, id, task, pass);
    } else if task.RetryWait? || task.Retrying() {
      RetryOk(st, id, task);
    } else if task.EnableWait? || task.Enabling? || task.Enabled? {
      EnableOk(st, id, task);
    } else if !task.Done? {
      SwitchOk(st, id, task);
    }
  }

  lemma FailOk(st: State, id: nat, task: Task)
    requires TaskOk(task, id, st.mem, st.lock)
    ensures EffectOk(st, id, FailEffect(st, task))
  {
  }

  lemma MergeKeepsInv(st: State, id: nat, e: Effect, nextId: nat)
    requires Inv(st) && EffectOk(st, id, e) && id < nextId && st.nextId <= nextId
    ensures Inv(Merged(st, id, e).(nextId := nextId))
  {
  }

  lemma InvStep(st: State, a: Action)
    requires Inv(st)
    ensures Inv(Apply(st, a)) && st.nextId <= Apply(st, a).nextId
    ensures EpochsGrow(st.mem, Apply(st, a).mem)
  {
    match a
    case Start(job) =>
      StartOk(st, job);
      MergeKeepsInv(st, st.nextId, StartEffect(st, job), st.nextId + 1);
    case Advance(id, pass) =>
      if id in st.tasks {
        AdvanceOk(st, id, st.tasks[id], pass);
        MergeKeepsInv(st, id, AdvanceEffect(st, id, st.tasks[id], pass), st.nextId);
      }
    case Fail(id) =>
      if id in st.tasks {
        FailOk(st, id, st.tasks[id]);
        MergeKeepsInv(st, id, FailEffect(st, st.tasks[id]), st.nextId);
      }
    case Deny(_) =>
    case Wait(_) =>
  }

  lemma {:induction false} InvRun(st: State, actions: seq<Action>)
    requires Inv(st)
    ensures Inv(Run(st, actions)) && st.nextId <= Run(st, actions).nextId
    decreases |actions|
  {
    if actions != [] {
      InvStep(st, actions[0]);
      InvRun(Apply(st, actions[0]), actions[1..]);
    }
  }

  /** A state some run of the service reaches. */
  ghost predicate Reachable(st: State) {
    exists stored, now, ttl, past :: st == Run(Init(stored, now, ttl), past)
  }

  lemma ReachableInv(st: State)
    requires Reachable(st)
    ensures Inv(st)
  {
    var stored, now, ttl, past :| st == Run(Init(stored, now, ttl), past);
    InvRun(Init(stored, now, ttl), past);
  }

  // ---------------------------------------------------------------- revocation

  /** Neither the scope nor the default it may inherit is durably on. */
  ghost predicate Off(stored: map<Scope, bool>, t: Scope) {
    Lookup(stored, t) != Some(true) && Lookup(stored, t.Group()) != Some(true)
  }

  /** No message of `t` is let through by what is stored: its own decision is a no, or nothing says yes. */
  ghost predicate Shut(stored: map<Scope, bool>, t: Scope) {
    Lookup(stored, t) == Some(false) || Off(stored, t)
  }

  ghost predicate NoGrants(tasks: map<nat, Task>, t: Scope) {
    forall id :: id in tasks ==> !tasks[id].Grants(t) && !tasks[id].Grants(t.Group())
  }

  ghost predicate NoLifts(tasks: map<nat, Task>, t: Scope) {
    forall id :: id in tasks ==> !tasks[id].Lifts(t)
  }

  /** The action starts no enable of the scope or of its group. */
  predicate Quiet(a: Action, t: Scope) {
    a.Start? && (a.job.Enable? || a.job.SwitchOn?) ==> a.job.scope != t && a.job.scope != t.Group()
  }

  ghost predicate AllQuiet(actions: seq<Action>, t: Scope) {
    forall a :: a in actions ==> Quiet(a, t)
  }

  /** No task numbered `since` or later reached the archive for `t`, and the cache holds no stale yes. */
  ghost predicate NothingLate(st: State, t: Scope, since: nat) {
    && (forall k :: 0 <= k < |st.archived| && st.archived[k].1 == t ==> st.archived[k].0 < since)
    && (t in st.mem.cache ==> !st.mem.cache[t].enabled)
  }

  /** A read of `t` that will not answer yes: it reads its own no, or every decision it asks for is off. */
  ghost predicate ReadsNo(task: Task, stored: map<Scope, bool>, t: Scope) {
    || (Off(stored, t) && (task.Looked? || task.LookedGroup? ==> task.found != Some(true)))
    || (Lookup(stored, t) == Some(false) && (task.Looking? || (task.Looked? && task.found == Some(false))))
  }

  ghost predicate TaskSafe(task: Task, id: nat, t: Scope, since: nat, mem: Memory, stored: map<Scope, bool>) {
    && !task.Grants(t)
    && !task.Grants(t.Group())
    && (Shut(stored, t) || !task.Lifts(t))
    && (task.Reader() && task.scope == t ==>
          (id < since && task.epoch < EpochOf(mem.epoch, t.channel)) || ReadsNo(task, stored, t))
  }

  /** The inductive form of `NothingLate`. */
  ghost predicate Safe(st: State, t: Scope, since: nat) {
    && since <= st.nextId
    && (Shut(st.stored, t) || (t in st.mem.denied && Lookup(st.stored, t) == Some(true)))
    && NothingLate(st, t, since)
    && (forall id :: id in st.tasks ==> TaskSafe(st.tasks[id], id, t, since, st.mem, st.stored))
  }

  ghost predicate EffectSafe(st: State, id: nat, e: Effect, t: Scope, since: nat) {
    && (Off(st.stored, t) ==> Off(e.stored, t))
    && (Lookup(st.stored, t) == Some(false) ==> Lookup(e.stored, t) == Some(false))
    && (Shut(e.stored, t) || (t in e.mem.denied && Lookup(e.stored, t) == Some(true)))
    && (t in e.mem.cache ==> !e.mem.cache[t].enabled)
    && (e.archives == Some(t) ==> id < since)
    && TaskSafe(e.task, id, t, since, e.mem, e.stored)
  }

  lemma StartSafe(st: State, job: Job, t: Scope, since: nat)
    requires Safe(st, t, since) && Quiet(Start(job), t)
    ensures EffectSafe(st, st.nextId, StartEffect(st, job), t, since)
  {
  }

  lemma DecidedSafe(st: State, id: nat, task: Task, pass: bool, t: Scope, since: nat)
    requires Safe(st, t, since) && (task.Looked? || task.LookedGroup?)
    requires TaskOk(task, id, st.mem, st.lock)
    requires TaskSafe(task, id, t, since, st.mem, st.stored)
    ensures EffectSafe(st, id, Decided(st, task, pass), t, since)
  {
  }

  lemma ReadSafe(st: State, id: nat, pass: bool, t: Scope, since: nat)
    requires Inv(st) && Safe(st, t, since) && id in st.tasks && st.tasks[id].Reader()
    ensures EffectSafe(st, id, ReadEffect(st, st.tasks[id], pass), t, since)
  {
    var task := st.tasks[id];
    assert TaskSafe(task, id, t, since, st.mem, st.stored);
    assert TaskOk(task, id, st.mem, st.lock);
    if task.LookedGroup? || (task.Looked? && !(task.found == None && task.scope.thread != "")) {
      DecidedSafe(st, id, task, pass, t, since);
    }
  }

  /** Lifting a tombstone is safe when what is stored keeps the scope shut, or it is another scope's. */
  lemma SettlesSafe(st: State, id: nat, s: Scope, t: Scope, since: nat)
    requires Inv(st) && Safe(st, t, since) && st.lock == Some(id) && (Shut(st.stored, t) || s != t)
    ensures EffectSafe(st, id, Settles(st, s), t, since)
  {
  }

  lemma RetryStaysSafe(st: State, id: nat, t: Scope, since: nat)
    requires Inv(st) && Safe(st, t, since) && id in st.tasks
    requires var task := st.tasks[id]; task.RetryWait? || task.RetryReading? || task.RetryWriting?
    ensures EffectSafe(st, id, RetryEffect(st, id, st.tasks[id]), t, since)
  {
    assert TaskSafe(st.tasks[id], id, t, since, st.mem, st.stored);
  }

  lemma RetrySafe(st: State, id: nat, t: Scope, since: nat)
    requires Inv(st) && Safe(st, t, since) && id in st.tasks
    requires st.tasks[id].RetryWait? || st.tasks[id].Retrying()
    ensures EffectSafe(st, id, RetryEffect(st, id, st.tasks[id]), t, since)
  {
    var task := st.tasks[id];
    assert TaskSafe(task, id, t, since, st.mem, st.stored);
    assert TaskOk(task, id, st.mem, st.lock);
    if task.RetryWritten? || (task.RetryRead? && task.found != Some(true)) {
      SettlesSafe(st, id, task.scope, t, since);
    } else if !task.RetryRead? {
      RetryStaysSafe(st, id, t, since);
    }
  }

  lemma EnableSafe(st: State, id: nat, t: Scope, since: nat)
    requires Inv(st) && Safe(st, t, since) && id in st.tasks
    requires st.tasks[id].EnableWait? || st.tasks[id].Enabling? || st.tasks[id].Enabled?
    ensures EffectSafe(st, id, EnableEffect(st, id, st.tasks[id]), t, since)
  {
    assert TaskSafe(st.tasks[id], id, t, since, st.mem, st.stored);
  }

  lemma SwitchSafe(st: State, id: nat, t: Scope, since: nat)
    requires Inv(st) && Safe(st, t, since) && id in st.tasks
    requires var task := st.tasks[id];
      task.SwitchingOn? || task.SwitchedOn? || task.SwitchingOff? || task.SwitchedOff?
    ensures EffectSafe(st, id, SwitchEffect(st, st.tasks[id]), t, since)
  {
    assert TaskSafe(st.tasks[id], id, t, since, st.mem, st.stored);
  }

  lemma AdvanceSafe(st: State, id: nat, pass: bool, t: Scope, since: nat)
    requires Inv(st) && Safe(st, t, since) && id in st.tasks
    ensures EffectSafe(st, id, AdvanceEffect(st, id, st.tasks[id], pass), t, since)
  {
    var task := st.tasks[id];
    if task.Reader() {
      ReadSafe(st, id, pass, t, since);
    } else if task.RetryWait? || task.Retrying() {
      RetrySafe(st, id, t, since);
    } else if task.EnableWait? || task.Enabling? || task.Enabled? {
      EnableSafe(st, id, t, since);
    } else if !task.Done? {
      SwitchSafe(st, id, t, since);
    }
  }

  lemma FailSafe(st: State, id: nat, t: Scope, since: nat)
    requires Inv(st) && Safe(st, t, since) && id in st.tasks
    ensures EffectSafe(st, id, FailEffect(st, st.tasks[id]), t, since)
  {
    assert TaskSafe(st.tasks[id], id, t, since, st.mem, st.stored);
  }

  lemma MergeKeepsSafe(st: State, id: nat, e: Effect, nextId: nat, t: Scope, since: nat)
    requires Inv(st) && Safe(st, t, since) && st.nextId <= nextId
    requires EffectOk(st, id, e) && EffectSafe(st, id, e, t, since)
    ensures Safe(Merged(st, id, e).(nextId := nextId), t, since)
  {
    var st' := Merged(st, id, e);
    forall j | j in st'.tasks
      ensures TaskSafe(st'.tasks[j], j, t, since, st'.mem, st'.stored)
    {
      if j != id {
        assert TaskSafe(st.tasks[j], j, t, since, st.mem, st.stored);
        assert EpochOf(st.mem.epoch, t.channel) <= EpochOf(e.mem.epoch, t.channel);
      }
    }
  }

  lemma SafeStep(st: State, a: Action, t: Scope, since: nat)
    requires Inv(st) && Safe(st, t, since) && Quiet(a, t)
    ensures Safe(Apply(st, a), t, since)
  {
    match a
    case Start(job) =>
      StartOk(st, job);
      StartSafe(st, job, t, since);
      MergeKeepsSafe(st, st.nextId, StartEffect(st, job), st.nextId + 1, t, since);
    case Advance(id, pass) =>
      if id in st.tasks {
        AdvanceOk(st, id, st.tasks[id], pass);
        AdvanceSafe(st, id, pass, t, since);
        MergeKeepsSafe(st, id, AdvanceEffect(st, id, st.tasks[id], pass), st.nextId, t, since);
      }
    case Fail(id) =>
      if id in st.tasks {
        FailOk(st, id, st.tasks[id]);
        FailSafe(st, id, t, since);
        MergeKeepsSafe(st, id, FailEffect(st, st.tasks[id]), st.nextId, t, since);
      }
    case Deny(s) =>
      DenyKeepsSafe(st, s, t, since);
    case Wait(_) =>
  }

  lemma DenyKeepsSafe(st: State, s: Scope, t: Scope, since: nat)
    requires Inv(st) && Safe(st, t, since)
    ensures Safe(Apply(st, Deny(s)), t, since)
  {
    var st' := Apply(st, Deny(s));
    forall j | j in st'.tasks
      ensures TaskSafe(st'.tasks[j], j, t, since, st'.mem, st'.stored)
    {
      assert TaskSafe(st.tasks[j], j, t, since, st.mem, st.stored);
    }
  }

  lemma {:induction false} SafeRun(st: State, actions: seq<Action>, t: Scope, since: nat)
    requires Inv(st) && Safe(st, t, since) && AllQuiet(actions, t)
    ensures Safe(Run(st, actions), t, since)
    decreases |actions|
  {
    if actions != [] {
      assert Quiet(actions[0], t);
      InvStep(st, actions[0]);
      SafeStep(st, actions[0], t, since);
      SafeRun(Apply(st, actions[0]), actions[1..], t, since);
    }
  }

  /** Nobody enables, so what is shut stays shut. */
  lemma {:induction false} ShutRun(st: State, actions: seq<Action>, t: Scope)
    requires Shut(st.stored, t) && NoGrants(st.tasks, t) && AllQuiet(actions, t)
    ensures Shut(Run(st, actions).stored, t) && NoGrants(Run(st, actions).tasks, t)
    decreases |actions|
  {
    if actions != [] {
      assert Quiet(actions[0], t);
      ShutStep(st, actions[0], t);
      ShutRun(Apply(st, actions[0]), actions[1..], t);
    }
  }

  /** What a segment may do to its own task, to the durable decisions and to the tombstones. */
  ghost predicate Frame(st: State, task: Task, e: Effect) {
    && (e.task.Done?
        || (&& !task.Done? && e.task.scope == task.scope
            && (e.task.Granting() ==> task.Granting())
            && (e.task.Switching() ==> task.Switching())
            && (e.task.Retrying() ==> task.Retrying() || task.scope in st.mem.denied)))
    && (e.stored == st.stored
        || ((task.Retrying() || task.Switching()) && e.stored == st.stored[task.scope := false])
        || (task.Granting() && e.stored == st.stored[task.scope := true]))
    && (e.mem.denied == st.mem.denied
        || (!task.Done? && e.mem.denied == st.mem.denied - {task.scope})
        || (task.Switching() && e.mem.denied == st.mem.denied + {task.scope}))
  }

  lemma ReadFrame(st: State, task: Task, pass: bool)
    requires task.Reader()
    ensures Frame(st, task, ReadEffect(st, task, pass))
  {
  }

  lemma RetryFrame(st: State, id: nat, task: Task)
    requires task.RetryWait? || task.Retrying()
    ensures Frame(st, task, RetryEffect(st, id, task))
  {
  }

  lemma EnableFrame(st: State, id: nat, task: Task)
    requires task.EnableWait? || task.Enabling? || task.Enabled?
    ensures Frame(st, task, EnableEffect(st, id, task))
  {
  }

  lemma AdvanceFrame(st: State, id: nat, task: Task, pass: bool)
    ensures Frame(st, task, AdvanceEffect(st, id, task, pass))
  {
    if task.Reader() {
      ReadFrame(st, task, pass);
    } else if task.RetryWait? || task.Retrying() {
      RetryFrame(st, id, task);
    } else if task.EnableWait? || task.Enabling? || task.Enabled? {
      EnableFrame(st, id, task);
    }
  }

  lemma FailFrame(st: State, task: Task)
    ensures Frame(st, task, FailEffect(st, task))
  {
  }

  lemma ShutMerge(st: State, id: nat, e: Effect, t: Scope)
    requires Shut(st.stored, t) && NoGrants(st.tasks, t)
    requires id in st.tasks && Frame(st, st.tasks[id], e)
    ensures Shut(Merged(st, id, e).stored, t) && NoGrants(Merged(st, id, e).tasks, t)
  {
    assert !st.tasks[id].Grants(t) && !st.tasks[id].Grants(t.Group());
  }

  lemma ShutStart(st: State, job: Job, t: Scope)
    requires Shut(st.stored, t) && NoGrants(st.tasks, t) && Quiet(Start(job), t)
    ensures Shut(Apply(st, Start(job)).stored, t) && NoGrants(Apply(st, Start(job)).tasks, t)
  {
    var e := StartEffect(st, job);
    assert e.stored == st.stored && !e.task.Grants(t) && !e.task.Grants(t.Group());
  }

  lemma ShutStep(st: State, a: Action, t: Scope)
    requires Shut(st.stored, t) && NoGrants(st.tasks, t) && Quiet(a, t)
    ensures Shut(Apply(st, a).stored, t) && NoGrants(Apply(st, a).tasks, t)
  {
    match a
    case Start(job) => ShutStart(st, job, t);
    case Advance(id, pass) =>
      if id in st.tasks {
        AdvanceFrame(st, id, st.tasks[id], pass);
        ShutMerge(st, id, AdvanceEffect(st, id, st.tasks[id], pass), t);
      }
    case Fail(id) =>
      if id in st.tasks {
        FailFrame(st, st.tasks[id]);
        ShutMerge(st, id, FailEffect(st, st.tasks[id]), t);
      }
    case Deny(_) =>
    case Wait(_) =>
  }

  /** After an invalidation of the scope or its whole channel, every read of it under way carries an old epoch. */
  lemma ForgottenIsSafe(st: State, id: nat, e: Effect, s: Scope, t: Scope)
    requires Inv(st) && id in st.tasks && Shut(st.stored, t) && NoGrants(st.tasks, t)
    requires s == t || s == t.Group()
    requires e.stored == st.stored && e.task == Done && e.archives == None
    requires e.mem == Forgotten(st.mem, s) || e.mem == Lifted(st.mem, s)
    ensures Safe(Merged(st, id, e), t, st.nextId)
  {
    var st' := Merged(st, id, e);
    forall j | j in st'.tasks
      ensures TaskSafe(st'.tasks[j], j, t, st.nextId, st'.mem, st'.stored)
    {
      if j != id {
        assert TaskOk(st.tasks[j], j, st.mem, st.lock);
        assert !st.tasks[j].Grants(t) && !st.tasks[j].Grants(t.Group());
      }
    }
  }

  /** One await of an explicit disable. */
  lemma SwitchStep(st: State, id: nat)
    requires id in st.tasks && st.tasks[id].Switching()
    ensures Apply(st, Advance(id, true)) == Merged(st, id, SwitchEffect(st, st.tasks[id]))
  {
  }

  /** A disable of the scope, or of the group it inherits from unless its own decision is a yes. */
  predicate Disables(s: Scope, st: State, t: Scope) {
    s == t || (s == t.Group() && Lookup(st.stored, t) != Some(true))
  }

  lemma LandingShuts(st: State, id: nat, s: Scope, lift: bool, t: Scope)
    requires id in st.tasks && st.tasks[id] == SwitchingOff(s, lift) && Disables(s, st, t)
    requires NoGrants(st.tasks, t)
    ensures var landed := Apply(st, Advance(id, true));
      Shut(landed.stored, t) && NoGrants(landed.tasks, t)
  {
    SwitchStep(st, id);
  }

  /**
   A durable disable, from the landing of its write: once its caller has also invalidated the cache,
   no later message of the disabled scope, nor, when that is a group, of any topic without a yes of
   its own, reaches the archive, whatever runs in between and afterwards, unless somebody enables.
   */
  lemma DurableRevocation(
      st: State, id: nat, s: Scope, lift: bool, t: Scope, middle: seq<Action>, future: seq<Action>)
    requires Reachable(st) && id in st.tasks && st.tasks[id] == SwitchingOff(s, lift) && Disables(s, st, t)
    requires NoGrants(st.tasks, t) && AllQuiet(middle, t) && AllQuiet(future, t)
    requires var waiting := Run(Apply(st, Advance(id, true)), middle);
      id in waiting.tasks && waiting.tasks[id] == SwitchedOff(s, lift)
    ensures var done := Apply(Run(Apply(st, Advance(id, true)), middle), Advance(id, true));
      NothingLate(Run(done, future), t, done.nextId)
  {
    ReachableInv(st);
    var landed := Apply(st, Advance(id, true));
    InvStep(st, Advance(id, true));
    LandingShuts(st, id, s, lift, t);
    ShutRun(landed, middle, t);
    InvRun(landed, middle);
    var waiting := Run(landed, middle);
    var done := Apply(waiting, Advance(id, true));
    InvStep(waiting, Advance(id, true));
    SwitchStep(waiting, id);
    ForgottenIsSafe(waiting, id, SwitchEffect(waiting, waiting.tasks[id]), s, t);
    SafeRun(done, future, t, done.nextId);
  }

  lemma RetryMoves(st: State, n: nat)
    requires n in st.tasks && (st.tasks[n].RetryWait? || st.tasks[n].Retrying())
    ensures Apply(st, Advance(n, true)) == Merged(st, n, RetryEffect(st, n, st.tasks[n]))
  {
  }

  lemma EnableMoves(st: State, n: nat)
    requires n in st.tasks && (st.tasks[n].EnableWait? || st.tasks[n].Enabling? || st.tasks[n].Enabled?)
    ensures Apply(st, Advance(n, true)) == Merged(st, n, EnableEffect(st, n, st.tasks[n]))
  {
  }
}
