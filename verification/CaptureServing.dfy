/**
 Consent is served as well as revoked: while a scope's yes stands, every message that may pass is
 archived exactly once, from the store or from the cache.
 */
module CaptureServing {
  import opened Basics
  import opened Capture
  import Consent = CaptureConsent

  // ---------------------------------------------------------------- what the cache answers

  /**
   A decision remembered at its own epoch answers every later message of an undenied scope until it
   expires; from then on the message has to read the store again.
   */
  lemma RememberedAnswers(m: Memory, s: Scope, epoch: nat, validUntil: int, enabled: bool, now: int)
    requires EpochOf(m.epoch, s.channel) == epoch && s !in m.denied
    ensures Admit(Remembered(m, s, epoch, validUntil, enabled), s, now)
      == if now < validUntil then Hit(enabled) else Miss(epoch)
  {
  }

  /** An invalidation in between wins: the decision is not remembered, and the message reads the store. */
  lemma ForgottenIsNotAnswered(m: Memory, s: Scope, cause: Scope, epoch: nat, validUntil: int, enabled: bool, now: int)
    requires epoch <= EpochOf(m.epoch, s.channel) && s !in m.denied && (cause == s || cause == s.Group())
    ensures Admit(Remembered(Forgotten(m, cause), s, epoch, validUntil, enabled), s, now)
      == Miss(EpochOf(m.epoch, s.channel) + 1)
  {
  }

  /** A tombstone answers before any cache entry. */
  lemma TombstoneAnswersFirst(m: Memory, s: Scope, now: int)
    ensures Admit(Denied(m, s), s, now) == Tombstoned && Admit(Lifted(m, s), s, now) != Tombstoned
  {
  }

  /** A message that finds neither tombstone nor live entry reads the store, and its read dates from now. */
  lemma MissReadsFromNow(st: State, s: Scope, pass: bool)
    requires s !in st.mem.denied && (s in st.mem.cache ==> st.mem.cache[s].validUntil <= st.now)
    ensures var after := Apply(st, Start(Ingest(s, pass)));
      st.nextId in after.tasks
      && after.tasks[st.nextId] == Looking(s, EpochOf(st.mem.epoch, s.channel), st.now)
  {
  }

  /** A read keeps its scope, the epoch it saw and its moment, until it concludes. */
  lemma ReadKeepsItsMoment(st: State, id: nat, pass: bool)
    requires id in st.tasks && st.tasks[id].Reader()
    ensures var task, after := st.tasks[id], Apply(st, Advance(id, pass)).tasks[id];
      after == Done
      || (after.Reader() && after.scope == task.scope && after.epoch == task.epoch && after.readAt == task.readAt)
  {
  }

  /**
   What a concluded read leaves: unless an invalidation landed meanwhile, every later message of the
   undenied scope gets its decision for a TTL from the moment the read began, and reads again after.
   */
  lemma DecisionIsServedForATtl(st: State, id: nat, pass: bool, wait: nat)
    requires id in st.tasks && (st.tasks[id].Looked? || st.tasks[id].LookedGroup?)
    requires var task := st.tasks[id];
      && EpochOf(st.mem.epoch, task.scope.channel) == task.epoch && task.scope !in st.mem.denied
      && (task.Looked? && task.scope.thread != "" ==> task.found.Some?)
    ensures var task, after := st.tasks[id], Apply(Apply(st, Advance(id, pass)), Wait(wait));
      Admit(after.mem, task.scope, after.now)
      == if st.now + wait < task.readAt + st.ttl then Hit(task.found == Some(true)) else Miss(task.epoch)
  {
  }

  /** A message that a tombstone stops queues a retry for its scope. */
  lemma StoppedMessageRetries(st: State, s: Scope, pass: bool)
    requires s in st.mem.denied
    ensures var after := Apply(st, Start(Ingest(s, pass)));
      && after.tasks == st.tasks[st.nextId := RetryWait(s)] && after.nextId == st.nextId + 1
      && after.mem == st.mem && after.stored == st.stored && after.lock == st.lock && after.archived == st.archived
  {
  }

  /** The awaits of one retry, undisturbed: it ends with the scope not on, and the tombstone lifted. */
  lemma RetryConverges(st: State, id: nat, s: Scope)
    requires id in st.tasks && st.tasks[id] == RetryWait(s) && s in st.mem.denied && st.lock == None
    ensures var step := Advance(id, true);
      var read := Apply(Apply(Apply(st, step), step), step);
      var end := if Lookup(st.stored, s) == Some(true) then Apply(Apply(read, step), step) else read;
      && end.tasks == st.tasks[id := Done] && end.lock == None && end.archived == st.archived
      && end.stored == (if Lookup(st.stored, s) == Some(true) then st.stored[s := false] else st.stored)
      && end.mem.denied == st.mem.denied - {s}
  {
    var reading := Apply(st, Advance(id, true));
    RetryMoves(st, id);
    assert reading.tasks == st.tasks[id := RetryReading(s)];
    RetryMoves(reading, id);
    var found := Apply(reading, Advance(id, true));
    RetryMoves(found, id);
    if Lookup(st.stored, s) == Some(true) {
      var writing := Apply(found, Advance(id, true));
      RetryMoves(writing, id);
      RetryMoves(Apply(writing, Advance(id, true)), id);
    }
  }

  /**
   A store that fails archives nothing, caches nothing and lifts nothing.  The task it fails is over,
   unless it was only queued, and gives up the lock if it held it; a disable it fails, landed or not,
   leaves its scope tombstoned.
   */
  lemma FailureFailsClosed(st: State, id: nat)
    requires Inv(st) && id in st.tasks
    ensures var task, after := st.tasks[id], Apply(st, Fail(id));
      && after.archived == st.archived && after.stored == st.stored
      && after.mem.denied == st.mem.denied + (if task.Switching() then {task.scope} else {})
      && (forall s :: s in after.mem.cache ==> s in st.mem.cache && after.mem.cache[s] == st.mem.cache[s])
      && (task.Switching() ==> Admit(after.mem, task.scope, after.now) == Tombstoned)
      && after.tasks == st.tasks[id := if task.Waits() then task else Done]
      && after.lock == if st.lock == Some(id) then None else st.lock
  {
  }

  // ---------------------------------------------------------------- a yes that stands

  /** The scopes whose state a message of `t` rests on: its own yes, or, undecided, its group's. */
  predicate Rests(own: bool, t: Scope, s: Scope) {
    s == t || (!own && s == t.Group())
  }

  ghost predicate Yes(stored: map<Scope, bool>, t: Scope, own: bool) {
    if own then Lookup(stored, t) == Some(true)
    else Lookup(stored, t) != Some(false) && Lookup(stored, t.Group()) == Some(true)
  }

  /** Only a topic can be undecided while its group says yes. */
  lemma TopicOrGroup(stored: map<Scope, bool>, t: Scope, own: bool)
    requires Yes(stored, t, own)
    ensures Lookup(stored, t) == Some(true) || (!own && Lookup(stored, t) == None && t.thread != "")
  {
    assert t.thread == "" ==> t.Group() == t;
    match Lookup(stored, t)
    case Some(yes) => assert yes;
    case None =>
  }

  ghost predicate Undenied(denied: set<Scope>, t: Scope, own: bool) {
    forall s :: s in denied ==> !Rests(own, t, s)
  }

  /** A read of `t` that will answer yes while the yes stands. */
  predicate ReadsYes(task: Task, t: Scope, own: bool) {
    && task.Reader() && task.scope == t
    && (task.Looked? ==> task.found == Some(true) || (!own && task.found == None && t.thread != ""))
    && (task.LookingGroup? ==> !own)
    && (task.LookedGroup? ==> task.found == Some(true))
  }

  /** No task of a scope `t` rests on can switch it off, and no read of `t` under way can cache a no. */
  ghost predicate TaskServes(task: Task, epoch: map<string, nat>, t: Scope, own: bool) {
    && (task.Switching() || task.Retrying() ==> !Rests(own, t, task.scope))
    && (task.Reader() && task.scope == t ==> task.epoch < EpochOf(epoch, t.channel) || ReadsYes(task, t, own))
  }

  ghost predicate Serving(st: State, t: Scope, own: bool) {
    && Inv(st)
    && Yes(st.stored, t, own)
    && Undenied(st.mem.denied, t, own)
    && (t in st.mem.cache ==> st.mem.cache[t].enabled)
    && forall id :: id in st.tasks ==> TaskServes(st.tasks[id], st.mem.epoch, t, own)
  }

  /** The action neither denies nor switches off a scope `t` rests on. */
  predicate Keeps(a: Action, t: Scope, own: bool) {
    && (a.Deny? ==> !Rests(own, t, a.scope))
    && (a.Start? && a.job.SwitchOff? ==> !Rests(own, t, a.job.scope))
  }

  ghost predicate EffectServes(st: State, e: Effect, t: Scope, own: bool) {
    && Yes(e.stored, t, own)
    && Undenied(e.mem.denied, t, own)
    && (t in e.mem.cache ==> e.mem.cache[t].enabled)
    && TaskServes(e.task, e.mem.epoch, t, own)
  }

  /** What the frame of a step already gives: the yes stands, and nobody denies or switches off. */
  lemma FrameServes(st: State, id: nat, e: Effect, t: Scope, own: bool)
    requires Serving(st, t, own) && id in st.tasks && Frame(st, st.tasks[id], e)
    ensures Yes(e.stored, t, own) && Undenied(e.mem.denied, t, own)
    ensures e.task.Switching() || e.task.Retrying() ==> !Rests(own, t, e.task.scope)
  {
    assert TaskServes(st.tasks[id], st.mem.epoch, t, own);
  }

  lemma ReadServes(st: State, id: nat, pass: bool, t: Scope, own: bool)
    requires Serving(st, t, own) && id in st.tasks && st.tasks[id].Reader()
    ensures EffectServes(st, ReadEffect(st, st.tasks[id], pass), t, own)
  {
    var task := st.tasks[id];
    TopicOrGroup(st.stored, t, own);
    assert TaskServes(task, st.mem.epoch, t, own) && TaskOk(task, id, st.mem, st.lock);
    ReadFrame(st, task, pass);
    FrameServes(st, id, ReadEffect(st, task, pass), t, own);
  }

  /** Only reads cache anything; every other step at most forgets. */
  lemma OthersOnlyForget(st: State, id: nat, task: Task, pass: bool)
    requires !task.Reader()
    ensures var e := AdvanceEffect(st, id, task, pass);
      !e.task.Reader() && forall s :: s in e.mem.cache ==> s in st.mem.cache && e.mem.cache[s] == st.mem.cache[s]
  {
    if task.RetryWait? || task.Retrying() {
      RetryForgets(st, id, task);
    } else if task.EnableWait? || task.Enabling? || task.Enabled? {
      EnableForgets(st, id, task);
    }
  }

  lemma RetryForgets(st: State, id: nat, task: Task)
    requires task.RetryWait? || task.Retrying()
    ensures var e := RetryEffect(st, id, task);
      !e.task.Reader() && forall s :: s in e.mem.cache ==> s in st.mem.cache && e.mem.cache[s] == st.mem.cache[s]
  {
  }

  lemma EnableForgets(st: State, id: nat, task: Task)
    requires task.EnableWait? || task.Enabling? || task.Enabled?
    ensures var e := EnableEffect(st, id, task);
      !e.task.Reader() && forall s :: s in e.mem.cache ==> s in st.mem.cache && e.mem.cache[s] == st.mem.cache[s]
  {
  }

  lemma AdvanceServes(st: State, id: nat, pass: bool, t: Scope, own: bool)
    requires Serving(st, t, own) && id in st.tasks
    ensures EffectServes(st, AdvanceEffect(st, id, st.tasks[id], pass), t, own)
  {
    if st.tasks[id].Reader() {
      ReadServes(st, id, pass, t, own);
    } else {
      AdvanceFrame(st, id, st.tasks[id], pass);
      FrameServes(st, id, AdvanceEffect(st, id, st.tasks[id], pass), t, own);
      OthersOnlyForget(st, id, st.tasks[id], pass);
    }
  }

  lemma FailServes(st: State, id: nat, t: Scope, own: bool)
    requires Serving(st, t, own) && id in st.tasks
    ensures EffectServes(st, FailEffect(st, st.tasks[id]), t, own)
  {
    FailFrame(st, st.tasks[id]);
    FrameServes(st, id, FailEffect(st, st.tasks[id]), t, own);
  }

  lemma StartServes(st: State, job: Job, t: Scope, own: bool)
    requires Serving(st, t, own) && Keeps(Start(job), t, own)
    ensures EffectServes(st, StartEffect(st, job), t, own)
  {
  }

  lemma MergeServes(st: State, id: nat, e: Effect, nextId: nat, t: Scope, own: bool)
    requires Serving(st, t, own) && EffectOk(st, id, e) && EffectServes(st, e, t, own)
    requires id < nextId && st.nextId <= nextId
    ensures Serving(Merged(st, id, e).(nextId := nextId), t, own)
  {
    MergeKeepsInv(st, id, e, nextId);
    var after := Merged(st, id, e);
    forall j | j in after.tasks ensures TaskServes(after.tasks[j], after.mem.epoch, t, own) {
      if j != id {
        assert TaskServes(st.tasks[j], st.mem.epoch, t, own);
        assert EpochOf(st.mem.epoch, t.channel) <= EpochOf(e.mem.epoch, t.channel);
      }
    }
  }

  lemma DenyServes(st: State, s: Scope, t: Scope, own: bool)
    requires Serving(st, t, own) && !Rests(own, t, s)
    ensures Serving(Apply(st, Deny(s)), t, own)
  {
    InvStep(st, Deny(s));
    var after := Apply(st, Deny(s));
    forall j | j in after.tasks ensures TaskServes(after.tasks[j], after.mem.epoch, t, own) {
      assert TaskServes(st.tasks[j], st.mem.epoch, t, own);
    }
  }

  lemma ServingStep(st: State, a: Action, t: Scope, own: bool)
    requires Serving(st, t, own) && Keeps(a, t, own)
    ensures Serving(Apply(st, a), t, own)
  {
    match a
    case Start(job) =>
      StartOk(st, job);
      StartServes(st, job, t, own);
      MergeServes(st, st.nextId, StartEffect(st, job), st.nextId + 1, t, own);
    case Advance(id, pass) =>
      if id in st.tasks {
        AdvanceOk(st, id, st.tasks[id], pass);
        AdvanceServes(st, id, pass, t, own);
        MergeServes(st, id, AdvanceEffect(st, id, st.tasks[id], pass), st.nextId, t, own);
      }
    case Fail(id) =>
      if id in st.tasks {
        FailOk(st, id, st.tasks[id]);
        FailServes(st, id, t, own);
        MergeServes(st, id, FailEffect(st, st.tasks[id]), st.nextId, t, own);
      }
    case Deny(s) => DenyServes(st, s, t, own);
    case Wait(_) =>
  }

  /** A yes goes on standing while nobody denies or switches off what it rests on. */
  lemma {:induction false} ServingRun(st: State, actions: seq<Action>, t: Scope, own: bool)
    requires Serving(st, t, own) && forall a :: a in actions ==> Keeps(a, t, own)
    ensures Serving(Run(st, actions), t, own)
    decreases |actions|
  {
    if actions != [] {
      ServingStep(st, actions[0], t, own);
      ServingRun(Apply(st, actions[0]), actions[1..], t, own);
    }
  }

  // ---------------------------------------------------------------- one message

  function TimesArchived(st: State, id: nat, t: Scope): nat {
    multiset(st.archived)[(id, t)]
  }

  /** Message `id` of `t` is done and archived once, or still reading its yes and not archived yet. */
  ghost predicate Followed(st: State, id: nat, t: Scope, own: bool) {
    && id in st.tasks
    && if st.tasks[id] == Done then TimesArchived(st, id, t) == 1
       else ReadsYes(st.tasks[id], t, own) && TimesArchived(st, id, t) == 0
  }

  /** Nothing this message waits for fails, and the per-scope ceiling lets it pass. */
  predicate LetsPass(a: Action, id: nat) {
    a != Fail(id) && a != Advance(id, false)
  }

  lemma ArchivedOnce(archived: seq<(nat, Scope)>, entry: (nat, Scope), id: nat, t: Scope)
    ensures multiset(archived + [entry])[(id, t)] == multiset(archived)[(id, t)] + (if entry == (id, t) then 1 else 0)
  {
    assert multiset(archived + [entry]) == multiset(archived) + multiset{entry};
  }

  /** Another task's segment archives under its own number. */
  lemma OthersArchiveTheirOwn(st: State, j: nat, e: Effect, id: nat, t: Scope)
    requires j != id
    ensures TimesArchived(Merged(st, j, e), id, t) == TimesArchived(st, id, t)
  {
    if e.archives.Some? {
      ArchivedOnce(st.archived, (j, e.archives.value), id, t);
    }
  }

  /** One await of the message's own. */
  lemma OwnStep(st: State, id: nat, t: Scope, own: bool)
    requires Serving(st, t, own) && Followed(st, id, t, own)
    ensures Followed(Apply(st, Advance(id, true)), id, t, own)
  {
    var task, e := st.tasks[id], AdvanceEffect(st, id, st.tasks[id], true);
    if task != Done {
      OwnRead(st, task, t, own);
      if e.archives.Some? {
        ArchivedOnce(st.archived, (id, t), id, t);
      }
    }
  }

  /** A read of a standing yes goes on to the next read, or archives. */
  lemma OwnRead(st: State, task: Task, t: Scope, own: bool)
    requires Yes(st.stored, t, own) && ReadsYes(task, t, own)
    ensures var e := ReadEffect(st, task, true);
      || (e.task == Done && e.archives == Some(t))
      || (ReadsYes(e.task, t, own) && e.archives == None && Left(e.task) < Left(task))
  {
    TopicOrGroup(st.stored, t, own);
  }

  lemma FollowedStep(st: State, a: Action, id: nat, t: Scope, own: bool)
    requires Serving(st, t, own) && Followed(st, id, t, own) && LetsPass(a, id)
    ensures Followed(Apply(st, a), id, t, own)
  {
    match a
    case Start(job) =>
      assert id < st.nextId;
      OthersArchiveTheirOwn(st, st.nextId, StartEffect(st, job), id, t);
    case Advance(j, pass) =>
      if j == id {
        OwnStep(st, id, t, own);
      } else if j in st.tasks {
        OthersArchiveTheirOwn(st, j, AdvanceEffect(st, j, st.tasks[j], pass), id, t);
      }
    case Fail(j) =>
      if j in st.tasks {
        OthersArchiveTheirOwn(st, j, FailEffect(st, st.tasks[j]), id, t);
      }
    case Deny(_) =>
    case Wait(_) =>
  }

  lemma {:induction false} FollowedRun(st: State, actions: seq<Action>, id: nat, t: Scope, own: bool)
    requires Serving(st, t, own) && Followed(st, id, t, own)
    requires forall a :: a in actions ==> Keeps(a, t, own) && LetsPass(a, id)
    ensures Followed(Run(st, actions), id, t, own)
    decreases |actions|
  {
    if actions != [] {
      ServingStep(st, actions[0], t, own);
      FollowedStep(st, actions[0], id, t, own);
      FollowedRun(Apply(st, actions[0]), actions[1..], id, t, own);
    }
  }

  lemma MessageArrives(st: State, t: Scope, own: bool)
    requires Serving(st, t, own)
    ensures Followed(Apply(st, Start(Ingest(t, true))), st.nextId, t, own)
  {
    var id, e := st.nextId, StartEffect(st, Ingest(t, true));
    assert (id, t) !in st.archived;
    assert TimesArchived(st, id, t) == 0;
    assert Rests(own, t, t);
    if e.archives.Some? {
      ArchivedOnce(st.archived, (id, t), id, t);
    }
  }

  /**
   While a yes stands, over every interleaving: a message that may pass and whose reads do not fail
   has been archived exactly once when it is done, from the store or from the cache, and not at all
   before.
   */
  lemma EveryMessageIsServed(st: State, t: Scope, own: bool, future: seq<Action>)
    requires Serving(st, t, own)
    requires forall a :: a in future ==> Keeps(a, t, own) && LetsPass(a, st.nextId)
    ensures var id, end := st.nextId, Run(Apply(st, Start(Ingest(t, true))), future);
      && id in end.tasks && Serving(end, t, own)
      && TimesArchived(end, id, t) == (if end.tasks[id] == Done then 1 else 0)
  {
    var begun := Apply(st, Start(Ingest(t, true)));
    MessageArrives(st, t, own);
    ServingStep(st, Start(Ingest(t, true)), t, own);
    FollowedRun(begun, future, st.nextId, t, own);
    ServingRun(begun, future, t, own);
  }

  /** How many awaits a read still has before it. */
  function Left(task: Task): nat {
    match task
    case Looking(_, _, _) => 4
    case Looked(_, _, _, _) => 3
    case LookingGroup(_, _, _) => 2
    case LookedGroup(_, _, _, _) => 1
    case _ => 0
  }

  /** And it is done after four of its own awaits at most. */
  lemma {:induction false} MessageFinishes(st: State, id: nat, t: Scope, own: bool, n: nat)
    requires Serving(st, t, own) && Followed(st, id, t, own) && Left(st.tasks[id]) <= n
    ensures var end := Run(st, seq(n, _ => Advance(id, true)));
      id in end.tasks && end.tasks[id] == Done && TimesArchived(end, id, t) == 1
    decreases n
  {
    if n > 0 {
      var steps, after := seq(n, _ => Advance(id, true)), Apply(st, Advance(id, true));
      assert steps[0] == Advance(id, true) && steps[1..] == seq(n - 1, _ => Advance(id, true));
      if st.tasks[id] != Done {
        OwnRead(st, st.tasks[id], t, own);
      }
      ServingStep(st, Advance(id, true), t, own);
      OwnStep(st, id, t, own);
      MessageFinishes(after, id, t, own, n - 1);
    } else {
      assert seq(0, _ => Advance(id, true)) == [];
    }
  }

  /** A message that arrives is done and archived once it has had four awaits, whatever the cache held. */
  lemma MessageIsArchived(st: State, t: Scope, own: bool)
    requires Serving(st, t, own)
    ensures var id := st.nextId;
      var end := Run(Apply(st, Start(Ingest(t, true))), seq(4, _ => Advance(id, true)));
      id in end.tasks && end.tasks[id] == Done && TimesArchived(end, id, t) == 1
  {
    MessageArrives(st, t, own);
    ServingStep(st, Start(Ingest(t, true)), t, own);
    MessageFinishes(Apply(st, Start(Ingest(t, true))), st.nextId, t, own, 4);
  }

  /** Only a segment the per-scope ceiling lets pass archives anything. */
  lemma NothingPassesTheCeiling(st: State, a: Action)
    ensures Apply(st, a).archived != st.archived ==>
      (a.Start? && a.job.Ingest? && a.job.pass) || (a.Advance? && a.pass)
  {
  }

  // ---------------------------------------------------------------- where a yes comes from

  /** What is stored on at start-up is served from the first message. */
  lemma StoredYesIsServed(stored: map<Scope, bool>, now: int, ttl: int, t: Scope, own: bool)
    requires Yes(stored, t, own)
    ensures Serving(Init(stored, now, ttl), t, own)
  {
  }

  /** After an invalidation every read of `t` under way is stale, and nothing about `t` is cached. */
  lemma ForgottenServes(st: State, id: nat, e: Effect, s: Scope, t: Scope, own: bool)
    requires Inv(st) && id in st.tasks && EffectOk(st, id, e) && e.task == Done && e.stored == st.stored
    requires e.mem == Forgotten(st.mem, s) || e.mem == Lifted(st.mem, s)
    requires s == t || s == t.Group()
    requires Yes(st.stored, t, own) && Undenied(e.mem.denied, t, own)
    requires forall j :: j in st.tasks && j != id ==>
      (st.tasks[j].Switching() || st.tasks[j].Retrying() ==> !Rests(own, t, st.tasks[j].scope))
    ensures Serving(Merged(st, id, e), t, own)
  {
    MergeKeepsInv(st, id, e, st.nextId);
    var after := Merged(st, id, e);
    forall j | j in after.tasks ensures TaskServes(after.tasks[j], after.mem.epoch, t, own) {
      if j != id {
        assert TaskOk(st.tasks[j], j, st.mem, st.lock);
      }
    }
  }

  /** A completed `enable_scope` stands: the scope is served from then on. */
  lemma EnabledIsServed(st: State, id: nat, t: Scope)
    requires Inv(st) && Consent.Announced(st, id, t) && st.tasks[id] == Enabled(t)
    ensures Serving(Apply(st, Advance(id, true)), t, true)
  {
    EnableMoves(st, id);
    AdvanceOk(st, id, st.tasks[id], true);
    forall j | j in st.tasks && j != id && (st.tasks[j].Switching() || st.tasks[j].Retrying())
      ensures !Rests(true, t, st.tasks[j].scope)
    {
      assert TaskOk(st.tasks[j], j, st.mem, st.lock) && TaskOk(st.tasks[id], id, st.mem, st.lock);
      assert !st.tasks[j].SwitchesOff(t);
    }
    ForgottenServes(st, id, EnableEffect(st, id, st.tasks[id]), t, t, true);
  }

  /** So does a completed `/capture on` of an undenied scope, for it and for the topics that inherit from it. */
  lemma SwitchedOnIsServed(st: State, id: nat, s: Scope, t: Scope, own: bool)
    requires Inv(st) && id in st.tasks && st.tasks[id] == SwitchedOn(s) && Rests(own, t, s)
    requires Yes(st.stored, t, own) && Undenied(st.mem.denied, t, own)
    requires forall j :: j in st.tasks && j != id ==>
      (st.tasks[j].Switching() || st.tasks[j].Retrying() ==> !Rests(own, t, st.tasks[j].scope))
    ensures Serving(Apply(st, Advance(id, true)), t, own)
  {
    AdvanceOk(st, id, st.tasks[id], true);
    ForgottenServes(st, id, SwitchEffect(st, st.tasks[id]), s, t, own);
  }

  /**
   From consent to the archive: once `enable_scope` has completed, whatever interleaves with it and
   follows short of a deny or a disable, a message of the scope that may pass is archived exactly once.
   */
  lemma ConsentIsServed(st: State, id: nat, t: Scope, middle: seq<Action>, before: seq<Action>)
    requires Reachable(st) && id in st.tasks && st.tasks[id] == Enabling(t)
    requires Consent.NoSwitchOff(st.tasks, t)
    requires forall k :: 0 <= k < |middle| ==> Consent.NotSwitchedOff(middle[k], t)
    requires var waiting := Run(Apply(st, Advance(id, true)), middle);
      id in waiting.tasks && waiting.tasks[id] == Enabled(t)
    requires forall a :: a in before ==> Keeps(a, t, true)
    ensures var now := Run(Apply(Run(Apply(st, Advance(id, true)), middle), Advance(id, true)), before);
      var message := now.nextId;
      var end := Run(Apply(now, Start(Ingest(t, true))), seq(4, _ => Advance(message, true)));
      message in end.tasks && end.tasks[message] == Done && TimesArchived(end, message, t) == 1
  {
    ReachableInv(st);
    Consent.EnableAnnounces(st, id, t);
    var landed := Apply(st, Advance(id, true));
    InvStep(st, Advance(id, true));
    Consent.AnnouncedRun(landed, middle, id, t);
    InvRun(landed, middle);
    var waiting := Run(landed, middle);
    EnabledIsServed(waiting, id, t);
    var done := Apply(waiting, Advance(id, true));
    ServingRun(done, before, t, true);
    MessageIsArchived(Run(done, before), t, true);
  }
}
