/**
 Transcribing DM sessions: lines are buffered per scope, flushed by a sleeping task, at shutdown, or
 when the identity or the page rolls over, and one write may be under way while anything else runs.
 A step is the code between two awaits; a run is any sequence of steps.
 */
module Transcribe {
  import opened Basics
  import Sessions

  type Scope = Sessions.Scope

  /** One recorded message: the session it was counted under, its page and its rendered text. */
  datatype Line = Line(session: Sessions.Session, page: string, text: string)

  datatype Buffer = Buffer(anchor: string, since: int, page: string, continuation: bool, lines: seq<Line>,
                           flusher: Option<nat>)

  /** One call of the publisher: continue the section, or start it under (since, anchor). */
  datatype Write = Write(scope: Scope, anchor: string, since: int, page: string, continued: bool, lines: seq<Line>)

  /** The service's fields, with its sleeping flusher tasks by number. */
  datatype Service = Service(buffers: map<Scope, Buffer>, published: set<(string, string)>,
                             sleeping: map<nat, Scope>, nextTask: nat)

  // ---------------------------------------------------------------- the code between awaits

  /** `_flush` up to its write, run by task `running`: the buffer leaves, and its flusher is cancelled. */
  function Popped(svc: Service, scope: Scope, running: Option<nat>): (Service, Option<Write>) {
    if scope !in svc.buffers then (svc, None)
    else
      var b := svc.buffers[scope];
      if b.lines == [] then (svc.(buffers := svc.buffers - {scope}), None)
      else
        (svc.(buffers := svc.buffers - {scope},
              sleeping := if b.flusher.Some? && b.flusher != running
                          then svc.sleeping - {b.flusher.value} else svc.sleeping),
         Some(Write(scope, b.anchor, b.since, b.page, b.continuation, b.lines)))
  }

  function Opened(svc: Service, line: Line): Buffer {
    Buffer(line.session.anchor, line.session.createdAt, line.page,
           (line.page, line.session.anchor) in svc.published, [], None)
  }

  function Appended(svc: Service, scope: Scope, line: Line): Service {
    var b := if scope in svc.buffers then svc.buffers[scope] else Opened(svc, line);
    svc.(buffers := svc.buffers[scope := b.(lines := b.lines + [line])])
  }

  /** A flusher for the buffer unless it has one that is not done. */
  function Armed(svc: Service, scope: Scope): Service
    requires scope in svc.buffers
  {
    var b := svc.buffers[scope];
    if b.flusher.Some? && b.flusher.value in svc.sleeping then svc
    else svc.(buffers := svc.buffers[scope := b.(flusher := Some(svc.nextTask))],
              sleeping := svc.sleeping[svc.nextTask := scope], nextTask := svc.nextTask + 1)
  }

  /** The last part of `record`: buffer the line, then write at once or see to a flusher. */
  function Placed(svc: Service, scope: Scope, line: Line, debounced: bool): (Service, Option<Write>) {
    var filled := Appended(svc, scope, line);
    if debounced then (Armed(filled, scope), None) else Popped(filled, scope, None)
  }

  /** The buffer at hand belongs to another identity or page. */
  predicate RollsOver(svc: Service, scope: Scope, line: Line) {
    scope in svc.buffers && (svc.buffers[scope].anchor != line.session.anchor || svc.buffers[scope].page != line.page)
  }

  /** `record` resumed after its rollover flush of (page, anchor): a new buffer takes the scope's place. */
  function Resumed(svc: Service, scope: Scope, closed: (string, string), line: Line, debounced: bool)
      : (Service, Option<Write>)
  {
    Placed(svc.(published := svc.published - {closed}, buffers := svc.buffers - {scope}), scope, line, debounced)
  }

  /** A flusher wakes and flushes its scope. */
  function Fired(svc: Service, task: nat): (Service, Option<Write>)
    requires task in svc.sleeping
  {
    Popped(svc.(sleeping := svc.sleeping - {task}), svc.sleeping[task], Some(task))
  }

  class DmTranscriptionService {
    const debounced: bool
    var buffers: map<Scope, Buffer>
    var published: set<(string, string)>
    var sleeping: map<nat, Scope>
    var nextTask: nat

    ghost function View(): Service
      reads this
    {
      Service(buffers, published, sleeping, nextTask)
    }

    constructor (debounced: bool)
      ensures View() == Service(map[], {}, map[], 0) && this.debounced == debounced
    {
      this.debounced, buffers, published, sleeping, nextTask := debounced, map[], {}, map[], 0;
    }

    method Pop(scope: Scope, running: Option<nat>) returns (write: Option<Write>)
      modifies this
      ensures (View(), write) == Popped(old(View()), scope, running)
    {
      if scope !in buffers {
        return None;
      }
      var buffer := buffers[scope];
      buffers := buffers - {scope};
      if buffer.lines == [] {
        return None;
      }
      if buffer.flusher.Some? && buffer.flusher != running {
        sleeping := sleeping - {buffer.flusher.value};
      }
      return Some(Write(scope, buffer.anchor, buffer.since, buffer.page, buffer.continuation, buffer.lines));
    }

    method Place(scope: Scope, line: Line) returns (write: Option<Write>)
      modifies this
      ensures (View(), write) == Placed(old(View()), scope, line, debounced)
    {
      if scope !in buffers {
        buffers := buffers[scope := Buffer(line.session.anchor, line.session.createdAt, line.page,
                                           (line.page, line.session.anchor) in published, [], None)];
      }
      var buffer := buffers[scope];
      buffers := buffers[scope := buffer.(lines := buffer.lines + [line])];
      assert View() == Appended(old(View()), scope, line);
      if !debounced {
        write := Pop(scope, None);
        return;
      }
      if buffer.flusher.None? || buffer.flusher.value !in sleeping {
        buffers := buffers[scope := buffers[scope].(flusher := Some(nextTask))];
        sleeping := sleeping[nextTask := scope];
        nextTask := nextTask + 1;
      }
      write := None;
    }

    /** `record` up to its first await; `rolled` when that is the rollover flush. */
    method Record(scope: Scope, line: Line) returns (write: Option<Write>, rolled: bool)
      modifies this
      ensures rolled == (RollsOver(old(View()), scope, line) && old(View()).buffers[scope].lines != [])
      ensures (View(), write) == Began(old(View()), scope, line, debounced)
    {
      if scope in buffers && (buffers[scope].anchor != line.session.anchor || buffers[scope].page != line.page) {
        var buffer := buffers[scope];
        write := Pop(scope, None);
        if write.Some? {
          return write, true;
        }
        write := Resume(scope, (buffer.page, buffer.anchor), line);
      } else {
        write := Place(scope, line);
      }
      rolled := false;
    }

    method Resume(scope: Scope, closed: (string, string), line: Line) returns (write: Option<Write>)
      modifies this
      ensures (View(), write) == Resumed(old(View()), scope, closed, line, debounced)
    {
      published := published - {closed};
      buffers := buffers - {scope};
      write := Place(scope, line);
    }

    method Fire(task: nat) returns (write: Option<Write>)
      requires task in sleeping
      modifies this
      ensures (View(), write) == Fired(old(View()), task)
    {
      var scope := sleeping[task];
      sleeping := sleeping - {task};
      write := Pop(scope, Some(task));
    }

    /** A write came back without an error. */
    method Published(write: Write)
      modifies this
      ensures View() == old(View()).(published := old(View()).published + {(write.page, write.anchor)})
    {
      published := published + {(write.page, write.anchor)};
    }
  }

  /** `record` from its start to its first await. */
  function Began(svc: Service, scope: Scope, line: Line, debounced: bool): (Service, Option<Write>) {
    if !RollsOver(svc, scope, line) then Placed(svc, scope, line, debounced)
    else
      var (rest, write) := Popped(svc, scope, None);
      if write.Some? then (rest, write)
      else Resumed(rest, scope, (svc.buffers[scope].page, svc.buffers[scope].anchor), line, debounced)
  }

  // ---------------------------------------------------------------- runs

  /** A `record` waiting for write number `attempt`: with its line still in hand, or with it in that write. */
  datatype Waiting = Rolling(line: Line, attempt: nat) | Immediate(attempt: nat)

  datatype Config = Config(ttl: int, debounced: bool)

  datatype State = State(sessions: Sessions.Registry, svc: Service, waiting: map<Scope, Waiting>,
                         writes: seq<Write>, outcomes: map<nat, bool>, recorded: seq<(Scope, Line)>)

  function Init(): State {
    State(map[], Service(map[], {}, map[], 0), map[], [], map[], [])
  }

  /** `record` calls of one scope do not overlap; everything else happens whenever it likes. */
  datatype Action =
    | Record(scope: Scope, moment: Sessions.Moment, page: string, text: string)
    | Session(op: Sessions.Op)
    | Fire(task: nat)
    | Flush(scope: Scope)
    | Finish(attempt: nat, ok: bool)

  function Launched(st: State, after: (Service, Option<Write>)): State {
    match after.1
    case None => st.(svc := after.0)
    case Some(w) => st.(svc := after.0, writes := st.writes + [w])
  }

  /** `record` past its last await but a possible immediate write. */
  function Settled(st: State, scope: Scope, after: (Service, Option<Write>)): State {
    Launched(st, after).(waiting :=
      if after.1.Some? then st.waiting[scope := Immediate(|st.writes|)] else st.waiting - {scope})
  }

  function RecordStep(c: Config, st: State, a: Action): State
    requires a.Record?
  {
    var session := Sessions.Advanced(st.sessions, a.scope, a.moment, c.ttl);
    var line := Line(session, a.page, a.text);
    var counted := st.(sessions := st.sessions[a.scope := session], recorded := st.recorded + [(a.scope, line)]);
    var after := Began(st.svc, a.scope, line, c.debounced);
    if RollsOver(st.svc, a.scope, line) && st.svc.buffers[a.scope].lines != []
    then Launched(counted, after).(waiting := st.waiting[a.scope := Rolling(line, |st.writes|)])
    else Settled(counted, a.scope, after)
  }

  function Concluded(st: State, k: nat, ok: bool): State
    requires k < |st.writes|
  {
    var w := st.writes[k];
    st.(outcomes := st.outcomes[k := ok],
        svc := if ok then st.svc.(published := st.svc.published + {(w.page, w.anchor)}) else st.svc)
  }

  function FinishStep(c: Config, st: State, k: nat, ok: bool): State
    requires k < |st.writes|
  {
    var done := Concluded(st, k, ok);
    var w := st.writes[k];
    if w.scope !in st.waiting || st.waiting[w.scope].attempt != k then done
    else match st.waiting[w.scope]
      case Rolling(line, _) =>
        Settled(done, w.scope, Resumed(done.svc, w.scope, (w.page, w.anchor), line, c.debounced))
      case Immediate(_) => done.(waiting := st.waiting - {w.scope})
  }

  function Apply(c: Config, st: State, a: Action): State
  {
    match a
    case Record(scope, _, _, _) => if scope in st.waiting then st else RecordStep(c, st, a)
    case Session(op) =>
      if op.verb == Sessions.Advance then st else st.(sessions := Sessions.After(st.sessions, op, c.ttl))
    case Fire(task) => if task !in st.svc.sleeping then st else Launched(st, Fired(st.svc, task))
    case Flush(scope) => Launched(st, Popped(st.svc, scope, None))
    case Finish(k, ok) => if k >= |st.writes| || k in st.outcomes then st else FinishStep(c, st, k, ok)
  }

  function Run(c: Config, st: State, actions: seq<Action>): State
    decreases |actions|
  {
    if actions == [] then st else Run(c, Apply(c, st, actions[0]), actions[1..])
  }

  // ---------------------------------------------------------------- buffers and flushers

  /** Lines of one identity on one page, under the heading of the session that opened the buffer. */
  predicate Whole(lines: seq<Line>, anchor: string, since: int, page: string) {
    && lines != [] && lines[0].session.createdAt == since
    && (forall k :: 0 <= k < |lines| ==> lines[k].session.anchor == anchor && lines[k].page == page)
  }

  /** The buffer of `scope` is whole, and when writes are delayed exactly one sleeping flusher is its own. */
  predicate BufferOk(svc: Service, scope: Scope)
    requires scope in svc.buffers
  {
    var b := svc.buffers[scope];
    && Whole(b.lines, b.anchor, b.since, b.page)
    && b.flusher.Some? && Lookup(svc.sleeping, b.flusher.value) == Some(scope)
  }

  predicate FlusherOk(svc: Service, task: nat)
    requires task in svc.sleeping
  {
    var scope := svc.sleeping[task];
    scope in svc.buffers && svc.buffers[scope].flusher == Some(task)
  }

  ghost predicate ServiceOk(svc: Service, debounced: bool) {
    && (forall scope :: scope in svc.buffers ==> BufferOk(svc, scope))
    && (forall task :: task in svc.sleeping ==> task < svc.nextTask)
    && (forall task :: task in svc.sleeping ==> FlusherOk(svc, task))
    && (!debounced ==> svc.buffers == map[] && svc.sleeping == map[])
  }

  lemma PoppedOk(svc: Service, scope: Scope, debounced: bool)
    requires ServiceOk(svc, debounced)
    ensures ServiceOk(Popped(svc, scope, None).0, debounced)
    ensures Popped(svc, scope, None).1.Some? <==> scope in svc.buffers
  {
    assert scope in svc.buffers ==> BufferOk(svc, scope);
    var after := Popped(svc, scope, None).0;
    forall s | s in after.buffers ensures BufferOk(after, s) {
      assert BufferOk(svc, s);
    }
    forall task | task in after.sleeping ensures FlusherOk(after, task) {
      assert FlusherOk(svc, task);
    }
  }

  /** A flusher that wakes flushes the buffer it was created for, and nothing else: a flush of its own scope. */
  lemma FlusherFiresOwnBuffer(svc: Service, task: nat, debounced: bool)
    requires ServiceOk(svc, debounced) && task in svc.sleeping
    ensures svc.sleeping[task] in svc.buffers && svc.buffers[svc.sleeping[task]].flusher == Some(task)
    ensures Fired(svc, task) == Popped(svc, svc.sleeping[task], None)
  {
    assert FlusherOk(svc, task);
    assert BufferOk(svc, svc.sleeping[task]);
  }

  lemma DelayedBuffers(svc: Service, scope: Scope, line: Line)
    requires ServiceOk(svc, true) && !RollsOver(svc, scope, line)
    ensures var after := Armed(Appended(svc, scope, line), scope);
      forall s :: s in after.buffers ==> BufferOk(after, s)
  {
    var after := Armed(Appended(svc, scope, line), scope);
    assert svc.nextTask !in svc.sleeping;
    forall s | s in after.buffers ensures BufferOk(after, s) {
      assert s in svc.buffers ==> BufferOk(svc, s);
    }
  }

  lemma DelayedFlushers(svc: Service, scope: Scope, line: Line)
    requires ServiceOk(svc, true)
    ensures var after := Armed(Appended(svc, scope, line), scope);
      forall task :: task in after.sleeping ==> task < after.nextTask && FlusherOk(after, task)
  {
    assert scope in svc.buffers ==> BufferOk(svc, scope);
    var after := Armed(Appended(svc, scope, line), scope);
    forall task | task in after.sleeping ensures task < after.nextTask && FlusherOk(after, task) {
      assert task in svc.sleeping ==> FlusherOk(svc, task);
    }
  }

  lemma PlacedOk(svc: Service, scope: Scope, line: Line, debounced: bool)
    requires ServiceOk(svc, debounced) && !RollsOver(svc, scope, line)
    ensures ServiceOk(Placed(svc, scope, line, debounced).0, debounced)
    ensures Placed(svc, scope, line, debounced).1.Some? <==> !debounced
  {
    if debounced {
      DelayedBuffers(svc, scope, line);
      DelayedFlushers(svc, scope, line);
    } else {
      assert Placed(svc, scope, line, false).0.buffers == map[];
    }
  }

  lemma ResumedOk(svc: Service, scope: Scope, closed: (string, string), line: Line, debounced: bool)
    requires ServiceOk(svc, debounced) && scope !in svc.buffers
    ensures ServiceOk(Resumed(svc, scope, closed, line, debounced).0, debounced)
    ensures Resumed(svc, scope, closed, line, debounced).1.Some? <==> !debounced
  {
    var cleared := svc.(published := svc.published - {closed}, buffers := svc.buffers - {scope});
    assert cleared.buffers == svc.buffers;
    assert ServiceOk(cleared, debounced) by {
      forall s | s in svc.buffers ensures BufferOk(cleared, s) {
        assert BufferOk(svc, s);
      }
      forall task | task in svc.sleeping ensures FlusherOk(cleared, task) {
        assert FlusherOk(svc, task);
      }
    }
    PlacedOk(cleared, scope, line, debounced);
  }

  lemma BeganOk(svc: Service, scope: Scope, line: Line, debounced: bool)
    requires ServiceOk(svc, debounced)
    ensures ServiceOk(Began(svc, scope, line, debounced).0, debounced)
    ensures RollsOver(svc, scope, line) ==> svc.buffers[scope].lines != []
    ensures Began(svc, scope, line, debounced).1.Some? <==> RollsOver(svc, scope, line) || !debounced
  {
    if RollsOver(svc, scope, line) {
      assert BufferOk(svc, scope);
      PoppedOk(svc, scope, debounced);
    } else {
      PlacedOk(svc, scope, line, debounced);
    }
  }

  // ---------------------------------------------------------------- waiting records

  /** A waiting `record` has no buffer and waits for an unfinished write of its own scope. */
  predicate WaitOk(st: State, scope: Scope)
    requires scope in st.waiting
  {
    var k := st.waiting[scope].attempt;
    scope !in st.svc.buffers && k < |st.writes| && k !in st.outcomes && st.writes[k].scope == scope
  }

  ghost predicate Ready(c: Config, st: State) {
    && ServiceOk(st.svc, c.debounced)
    && (forall scope :: scope in st.waiting ==> WaitOk(st, scope))
    && (forall k :: k in st.outcomes ==> k < |st.writes|)
  }

  lemma RecordReady(c: Config, st: State, a: Action)
    requires Ready(c, st) && a.Record? && a.scope !in st.waiting
    ensures Ready(c, RecordStep(c, st, a))
  {
    var line := Line(Sessions.Advanced(st.sessions, a.scope, a.moment, c.ttl), a.page, a.text);
    BeganOk(st.svc, a.scope, line, c.debounced);
    var after := RecordStep(c, st, a);
    forall scope | scope in after.waiting ensures WaitOk(after, scope) {
      if scope != a.scope {
        assert WaitOk(st, scope);
      }
    }
  }

  lemma FinishService(c: Config, st: State, k: nat, ok: bool)
    requires Ready(c, st) && k < |st.writes| && k !in st.outcomes
    ensures ServiceOk(FinishStep(c, st, k, ok).svc, c.debounced)
  {
    var done, mine := Concluded(st, k, ok), st.writes[k].scope;
    ConcludedOk(c, st, k, ok);
    if mine in st.waiting && st.waiting[mine].attempt == k && st.waiting[mine].Rolling? {
      assert WaitOk(st, mine);
      ResumedOk(done.svc, mine, (st.writes[k].page, st.writes[k].anchor), st.waiting[mine].line, c.debounced);
    }
  }

  lemma FinishReady(c: Config, st: State, k: nat, ok: bool)
    requires Ready(c, st) && k < |st.writes| && k !in st.outcomes
    ensures Ready(c, FinishStep(c, st, k, ok))
  {
    FinishService(c, st, k, ok);
    FinishShape(c, st, k, ok);
    var after := FinishStep(c, st, k, ok);
    forall scope | scope in after.waiting ensures WaitOk(after, scope) {
      assert scope in st.waiting ==> WaitOk(st, scope);
    }
  }

  /** `scope` waits as it did before write `k` finished. */
  ghost predicate WaitsOn(st: State, after: State, k: nat, scope: Scope) {
    && scope in st.waiting && scope in after.waiting && after.waiting[scope] == st.waiting[scope]
    && st.waiting[scope].attempt != k
    && (scope in after.svc.buffers ==> scope in st.svc.buffers)
  }

  /** `scope` waits for its record's own last write. */
  ghost predicate WaitsLast(st: State, after: State, scope: Scope) {
    && scope in after.waiting && after.waiting[scope] == Immediate(|st.writes|) && |st.writes| < |after.writes|
    && after.writes[|st.writes|].scope == scope && scope !in after.svc.buffers
  }

  lemma OthersWait(st: State, k: nat, scope: Scope)
    requires k < |st.writes| && scope in st.waiting && WaitOk(st, scope) && st.writes[k].scope != scope
    ensures st.waiting[scope].attempt != k
  {
  }

  /** A placed line's write, if any, is its scope's own, and only its scope's buffer changes. */
  lemma PlacedShape(svc: Service, scope: Scope, line: Line, debounced: bool)
    ensures var (after, write) := Placed(svc, scope, line, debounced);
      && (forall s :: s != scope && s in after.buffers ==> s in svc.buffers)
      && (write.Some? ==> write.value.scope == scope && scope !in after.buffers)
  {
  }

  /** Who waits after a write has finished: as before, but its own record waits no more, or for its last write. */
  lemma FinishShape(c: Config, st: State, k: nat, ok: bool)
    requires Ready(c, st) && k < |st.writes| && k !in st.outcomes
    ensures var after := FinishStep(c, st, k, ok);
      && st.writes <= after.writes && after.outcomes == st.outcomes[k := ok]
      && forall scope :: scope in after.waiting ==> WaitsOn(st, after, k, scope) || WaitsLast(st, after, scope)
  {
    var done, w, after := Concluded(st, k, ok), st.writes[k], FinishStep(c, st, k, ok);
    if w.scope in st.waiting && st.waiting[w.scope].attempt == k && st.waiting[w.scope].Rolling? {
      PlacedShape(done.svc.(published := done.svc.published - {(w.page, w.anchor)},
                            buffers := done.svc.buffers - {w.scope}),
                  w.scope, st.waiting[w.scope].line, c.debounced);
    }
    forall scope | scope in after.waiting ensures WaitsOn(st, after, k, scope) || WaitsLast(st, after, scope) {
      if scope != w.scope {
        assert WaitOk(st, scope);
        OthersWait(st, k, scope);
      }
    }
  }

  lemma ConcludedOk(c: Config, st: State, k: nat, ok: bool)
    requires ServiceOk(st.svc, c.debounced) && k < |st.writes|
    ensures ServiceOk(Concluded(st, k, ok).svc, c.debounced)
  {
    var after := Concluded(st, k, ok).svc;
    forall scope | scope in after.buffers ensures BufferOk(after, scope) {
      assert BufferOk(st.svc, scope);
    }
    forall task | task in after.sleeping ensures FlusherOk(after, task) {
      assert FlusherOk(st.svc, task);
    }
  }

  lemma FlushReady(c: Config, st: State, scope: Scope)
    requires Ready(c, st)
    ensures Ready(c, Launched(st, Popped(st.svc, scope, None)))
  {
    PoppedOk(st.svc, scope, c.debounced);
    var after := Launched(st, Popped(st.svc, scope, None));
    forall s | s in after.waiting ensures WaitOk(after, s) {
      assert WaitOk(st, s);
    }
  }

  lemma ReadyStep(c: Config, st: State, a: Action)
    requires Ready(c, st)
    ensures Ready(c, Apply(c, st, a))
  {
    match a
    case Record(scope, _, _, _) =>
      if scope !in st.waiting {
        RecordReady(c, st, a);
      }
    case Session(op) =>
      forall s | s in st.waiting ensures WaitOk(Apply(c, st, a), s) {
        assert WaitOk(st, s);
      }
    case Fire(task) =>
      if task in st.svc.sleeping {
        FlusherFiresOwnBuffer(st.svc, task, c.debounced);
        FlushReady(c, st, st.svc.sleeping[task]);
      }
    case Flush(scope) => FlushReady(c, st, scope);
    case Finish(k, ok) =>
      if k < |st.writes| && k !in st.outcomes {
        FinishReady(c, st, k, ok);
      }
  }

  lemma {:induction false} ReadyRun(c: Config, st: State, actions: seq<Action>)
    requires Ready(c, st)
    ensures Ready(c, Run(c, st, actions))
    decreases |actions|
  {
    if actions != [] {
      ReadyStep(c, st, actions[0]);
      ReadyRun(c, Apply(c, st, actions[0]), actions[1..]);
    }
  }

  // ---------------------------------------------------------------- nothing lost, doubled or reordered

  function WrittenLines(writes: seq<Write>, s: Scope): seq<Line> {
    if writes == [] then []
    else WrittenLines(writes[..|writes| - 1], s) + Carried(Some(writes[|writes| - 1]), s)
  }

  function Carried(write: Option<Write>, s: Scope): seq<Line> {
    if write.Some? && write.value.scope == s then write.value.lines else []
  }

  function BufferedLines(svc: Service, s: Scope): seq<Line> {
    if s in svc.buffers then svc.buffers[s].lines else []
  }

  /** The line a rollover holds up. */
  function HeldLines(waiting: map<Scope, Waiting>, s: Scope): seq<Line> {
    if s in waiting && waiting[s].Rolling? then [waiting[s].line] else []
  }

  function RecordedLines(recorded: seq<(Scope, Line)>, s: Scope): seq<Line> {
    if recorded == [] then []
    else
      var last := recorded[|recorded| - 1];
      RecordedLines(recorded[..|recorded| - 1], s) + (if last.0 == s then [last.1] else [])
  }

  /** Where the scope's lines are: in writes, in the order these started, then in the buffer, then in hand. */
  function Kept(st: State, s: Scope): seq<Line> {
    WrittenLines(st.writes, s) + BufferedLines(st.svc, s) + HeldLines(st.waiting, s)
  }

  ghost predicate Conserved(st: State, s: Scope) {
    Kept(st, s) == RecordedLines(st.recorded, s)
  }

  function Only(here: bool, line: Line): seq<Line> {
    if here then [line] else []
  }

  lemma PopMoves(svc: Service, scope: Scope, s: Scope)
    ensures var (after, write) := Popped(svc, scope, None);
      Carried(write, s) + BufferedLines(after, s) == BufferedLines(svc, s)
  {
  }

  lemma PlaceAdds(svc: Service, scope: Scope, line: Line, debounced: bool, s: Scope)
    ensures var (after, write) := Placed(svc, scope, line, debounced);
      Carried(write, s) + BufferedLines(after, s) == BufferedLines(svc, s) + Only(s == scope, line)
  {
    var filled := Appended(svc, scope, line);
    PopMoves(filled, scope, s);
  }

  lemma BeganAdds(svc: Service, scope: Scope, line: Line, debounced: bool, s: Scope)
    requires ServiceOk(svc, debounced)
    ensures var (after, write) := Began(svc, scope, line, debounced);
      Carried(write, s) + BufferedLines(after, s)
      == BufferedLines(svc, s) + Only(s == scope && !RollsOver(svc, scope, line), line)
  {
    if RollsOver(svc, scope, line) {
      assert BufferOk(svc, scope);
      PopMoves(svc, scope, s);
    } else {
      PlaceAdds(svc, scope, line, debounced, s);
    }
  }

  /** A launch appends what its write carries; whoever waits now is the caller's to say. */
  lemma LaunchKeeps(st: State, after: (Service, Option<Write>), waiting: map<Scope, Waiting>, s: Scope)
    ensures Kept(Launched(st, after).(waiting := waiting), s)
      == WrittenLines(st.writes, s) + (Carried(after.1, s) + BufferedLines(after.0, s)) + HeldLines(waiting, s)
  {
    if after.1.Some? {
      assert Launched(st, after).writes[..|st.writes|] == st.writes;
    }
  }

  /** A record step in one piece: what it holds up is the line of a rollover. */
  lemma RecordShape(c: Config, st: State, a: Action, line: Line, s: Scope)
    requires Ready(c, st) && a.Record? && a.scope !in st.waiting
    requires line == Line(Sessions.Advanced(st.sessions, a.scope, a.moment, c.ttl), a.page, a.text)
    ensures var after := RecordStep(c, st, a);
      && after.recorded == st.recorded + [(a.scope, line)]
      && var launched := Launched(st, Began(st.svc, a.scope, line, c.debounced));
      && after.svc == launched.svc && after.writes == launched.writes
      && HeldLines(after.waiting, s) == Only(s == a.scope && RollsOver(st.svc, a.scope, line), line)
           + HeldLines(st.waiting, s)
  {
    BeganOk(st.svc, a.scope, line, c.debounced);
    if RollsOver(st.svc, a.scope, line) {
      RecordRolls(c, st, a, line);
      HoldsMore(st.waiting, a.scope, Rolling(line, |st.writes|), s);
    } else {
      RecordSettles(c, st, a, line);
      HoldsMore(st.waiting, a.scope, Immediate(|st.writes|), s);
    }
  }

  lemma RecordRolls(c: Config, st: State, a: Action, line: Line)
    requires a.Record? && RollsOver(st.svc, a.scope, line) && st.svc.buffers[a.scope].lines != []
    requires line == Line(Sessions.Advanced(st.sessions, a.scope, a.moment, c.ttl), a.page, a.text)
    ensures var after, launched := RecordStep(c, st, a), Launched(st, Began(st.svc, a.scope, line, c.debounced));
      && after.recorded == st.recorded + [(a.scope, line)]
      && after.svc == launched.svc && after.writes == launched.writes
      && after.waiting == st.waiting[a.scope := Rolling(line, |st.writes|)]
  {
  }

  lemma RecordSettles(c: Config, st: State, a: Action, line: Line)
    requires a.Record? && !RollsOver(st.svc, a.scope, line) && a.scope !in st.waiting
    requires line == Line(Sessions.Advanced(st.sessions, a.scope, a.moment, c.ttl), a.page, a.text)
    ensures var after, launched := RecordStep(c, st, a), Launched(st, Began(st.svc, a.scope, line, c.debounced));
      && after.recorded == st.recorded + [(a.scope, line)]
      && after.svc == launched.svc && after.writes == launched.writes
      && (after.waiting == st.waiting || after.waiting == st.waiting[a.scope := Immediate(|st.writes|)])
  {
    assert st.waiting - {a.scope} == st.waiting;
  }

  /** A new wait of a scope that had none holds its line, if it holds one. */
  lemma HoldsMore(waiting: map<Scope, Waiting>, scope: Scope, w: Waiting, s: Scope)
    requires scope !in waiting
    ensures HeldLines(waiting[scope := w], s)
      == (if s == scope && w.Rolling? then [w.line] else []) + HeldLines(waiting, s)
  {
  }

  /** The sum of a record step: `began` placed the line, or it is held up and nothing was held before. */
  lemma RecordSums(
      st: State, after: State, began: (Service, Option<Write>), scope: Scope, line: Line, rolls: bool, s: Scope)
    requires Conserved(st, s) && (s == scope ==> HeldLines(st.waiting, s) == [])
    requires after.svc == Launched(st, began).svc && after.writes == Launched(st, began).writes
    requires after.recorded == st.recorded + [(scope, line)]
    requires HeldLines(after.waiting, s) == Only(s == scope && rolls, line) + HeldLines(st.waiting, s)
    requires Carried(began.1, s) + BufferedLines(began.0, s)
      == BufferedLines(st.svc, s) + Only(s == scope && !rolls, line)
    ensures Conserved(after, s)
  {
    LaunchKeeps(st, began, after.waiting, s);
    RecordedGrows(st.recorded, scope, line, s);
    var placed, held := Only(s == scope && !rolls, line), Only(s == scope && rolls, line);
    Regroup(WrittenLines(st.writes, s), BufferedLines(st.svc, s), placed, held, HeldLines(st.waiting, s),
            Only(s == scope, line));
  }

  lemma Reassociate<T>(written: seq<T>, buffered: seq<T>, placed: seq<T>, held: seq<T>)
    ensures written + (buffered + placed) + held == written + buffered + (placed + held)
  {
  }

  lemma Regroup<T>(written: seq<T>, buffered: seq<T>, placed: seq<T>, held: seq<T>, before: seq<T>, all: seq<T>)
    requires (placed == all && held == []) || (placed == [] && held == all)
    requires all == [] || before == []
    ensures written + (buffered + placed) + (held + before) == written + buffered + before + all
  {
  }

  lemma RecordConserves(c: Config, st: State, a: Action, s: Scope)
    requires Ready(c, st) && Conserved(st, s) && a.Record? && a.scope !in st.waiting
    ensures Conserved(RecordStep(c, st, a), s)
  {
    var line := Line(Sessions.Advanced(st.sessions, a.scope, a.moment, c.ttl), a.page, a.text);
    RecordShape(c, st, a, line, s);
    BeganAdds(st.svc, a.scope, line, c.debounced, s);
    RecordSums(st, RecordStep(c, st, a), Began(st.svc, a.scope, line, c.debounced), a.scope, line,
               RollsOver(st.svc, a.scope, line), s);
  }

  lemma RecordedGrows(recorded: seq<(Scope, Line)>, scope: Scope, line: Line, s: Scope)
    ensures RecordedLines(recorded + [(scope, line)], s) == RecordedLines(recorded, s) + Only(s == scope, line)
  {
    assert (recorded + [(scope, line)])[..|recorded|] == recorded;
  }

  /** A rollover resumed in one piece: the held line is placed on a scope without a buffer. */
  lemma ResumeShape(c: Config, st: State, k: nat, ok: bool, s: Scope)
    requires Ready(c, st) && k < |st.writes| && k !in st.outcomes
    requires var w := st.writes[k];
      w.scope in st.waiting && st.waiting[w.scope].attempt == k && st.waiting[w.scope].Rolling?
    ensures var w, line := st.writes[k], st.waiting[st.writes[k].scope].line;
      var done, after := Concluded(st, k, ok), FinishStep(c, st, k, ok);
      && var launched := Launched(done, Resumed(done.svc, w.scope, (w.page, w.anchor), line, c.debounced));
      && after.svc == launched.svc && after.writes == launched.writes && after.recorded == st.recorded
      && HeldLines(st.waiting, s) == Only(s == w.scope, line) + HeldLines(after.waiting, s)
      && (s == w.scope ==> HeldLines(after.waiting, s) == [] && BufferedLines(st.svc, s) == [])
  {
    assert WaitOk(st, st.writes[k].scope);
  }

  /** The sum of a resumed rollover: the held line is placed. */
  lemma ResumeSums(
      st: State, done: State, after: State, placed: (Service, Option<Write>), scope: Scope, line: Line, s: Scope)
    requires Conserved(st, s) && done.writes == st.writes && (s == scope ==> HeldLines(after.waiting, s) == [])
    requires after.svc == Launched(done, placed).svc && after.writes == Launched(done, placed).writes
    requires after.recorded == st.recorded
    requires HeldLines(st.waiting, s) == Only(s == scope, line) + HeldLines(after.waiting, s)
    requires Carried(placed.1, s) + BufferedLines(placed.0, s) == BufferedLines(st.svc, s) + Only(s == scope, line)
    ensures Conserved(after, s)
  {
    LaunchKeeps(done, placed, after.waiting, s);
    Reassociate(WrittenLines(st.writes, s), BufferedLines(st.svc, s), Only(s == scope, line),
                HeldLines(after.waiting, s));
  }

  lemma ResumeConserves(c: Config, st: State, k: nat, ok: bool, s: Scope)
    requires Ready(c, st) && Conserved(st, s) && k < |st.writes| && k !in st.outcomes
    requires var w := st.writes[k];
      w.scope in st.waiting && st.waiting[w.scope].attempt == k && st.waiting[w.scope].Rolling?
    ensures Conserved(FinishStep(c, st, k, ok), s)
  {
    var done, w := Concluded(st, k, ok), st.writes[k];
    var line := st.waiting[w.scope].line;
    ResumeShape(c, st, k, ok, s);
    PlaceAdds(done.svc.(published := done.svc.published - {(w.page, w.anchor)},
                        buffers := done.svc.buffers - {w.scope}),
              w.scope, line, c.debounced, s);
    ResumeSums(st, done, FinishStep(c, st, k, ok), Resumed(done.svc, w.scope, (w.page, w.anchor), line, c.debounced),
               w.scope, line, s);
  }

  lemma FlushConserves(st: State, scope: Scope, s: Scope)
    requires Conserved(st, s)
    ensures Conserved(Launched(st, Popped(st.svc, scope, None)), s)
  {
    PopMoves(st.svc, scope, s);
    LaunchKeeps(st, Popped(st.svc, scope, None), st.waiting, s);
  }

  lemma FireConserves(c: Config, st: State, task: nat, s: Scope)
    requires Ready(c, st) && Conserved(st, s) && task in st.svc.sleeping
    ensures Conserved(Launched(st, Fired(st.svc, task)), s)
  {
    FlusherFiresOwnBuffer(st.svc, task, c.debounced);
    FlushConserves(st, st.svc.sleeping[task], s);
  }

  lemma ConservedStep(c: Config, st: State, a: Action, s: Scope)
    requires Ready(c, st) && Conserved(st, s)
    ensures Conserved(Apply(c, st, a), s)
  {
    match a
    case Record(scope, _, _, _) =>
      if scope !in st.waiting {
        RecordConserves(c, st, a, s);
      }
    case Session(op) =>
    case Fire(task) =>
      if task in st.svc.sleeping {
        FireConserves(c, st, task, s);
      }
    case Flush(scope) => FlushConserves(st, scope, s);
    case Finish(k, ok) =>
      if k < |st.writes| && k !in st.outcomes {
        FinishConserves(c, st, k, ok, s);
      }
  }

  lemma FinishConserves(c: Config, st: State, k: nat, ok: bool, s: Scope)
    requires Ready(c, st) && Conserved(st, s) && k < |st.writes| && k !in st.outcomes
    ensures Conserved(FinishStep(c, st, k, ok), s)
  {
    var w := st.writes[k];
    if w.scope in st.waiting && st.waiting[w.scope].attempt == k {
      if st.waiting[w.scope].Rolling? {
        ResumeConserves(c, st, k, ok, s);
      } else {
        assert HeldLines(st.waiting - {w.scope}, s) == HeldLines(st.waiting, s);
      }
    }
  }

  lemma {:induction false} ConservedRun(c: Config, st: State, actions: seq<Action>, s: Scope)
    requires Ready(c, st) && Conserved(st, s)
    ensures Conserved(Run(c, st, actions), s)
    decreases |actions|
  {
    if actions != [] {
      ReadyStep(c, st, actions[0]);
      ConservedStep(c, st, actions[0], s);
      ConservedRun(c, Apply(c, st, actions[0]), actions[1..], s);
    }
  }

  /**
   Every recorded line is in exactly one write attempt, or still buffered or in hand, and all of a
   scope's lines are there in the order they were recorded, whatever flushes, fails or rolls over when.
   */
  lemma EveryLineOnceInOrder(c: Config, actions: seq<Action>, s: Scope)
    ensures Kept(Run(c, Init(), actions), s) == RecordedLines(Run(c, Init(), actions).recorded, s)
  {
    ConservedRun(c, Init(), actions, s);
  }

  /** A record resumed after its rollover keeps the scope's lines exactly when it finds no buffer with any. */
  lemma ResumedKeepsExactly(svc: Service, scope: Scope, closed: (string, string), line: Line, debounced: bool)
    ensures var (after, write) := Resumed(svc, scope, closed, line, debounced);
      Carried(write, scope) + BufferedLines(after, scope) == BufferedLines(svc, scope) + [line]
      <==> BufferedLines(svc, scope) == []
  {
    var cleared := svc.(published := svc.published - {closed}, buffers := svc.buffers - {scope});
    PlaceAdds(cleared, scope, line, debounced, scope);
    assert BufferedLines(cleared, scope) == [];
    if BufferedLines(svc, scope) != [] {
      assert |BufferedLines(svc, scope) + [line]| > |[line]|;
    }
  }

  /**
   Why calls for one scope must not overlap.  A first line is buffered; a record under another
   identity or page is suspended in its rollover flush; a second record meanwhile buffers its line;
   the first one resumes, and that line is in no write and no buffer.
   */
  lemma OverlapLosesLine(scope: Scope, first: Line, rolling: Line, lost: Line)
    requires first.session.anchor != rolling.session.anchor || first.page != rolling.page
    ensures var began := Began(Began(Service(map[], {}, map[], 0), scope, first, true).0, scope, rolling, true);
      var meanwhile := Began(began.0, scope, lost, true);
      var resumed := Resumed(meanwhile.0, scope, (first.page, first.session.anchor), rolling, true);
      && began.1.Some? && began.1.value.lines == [first]
      && meanwhile.1 == None && BufferedLines(meanwhile.0, scope) == [lost]
      && resumed.1 == None && BufferedLines(resumed.0, scope) == [rolling]
  {
    var opened1 := Began(Service(map[], {}, map[], 0), scope, first, true).0;
    assert RollsOver(opened1, scope, rolling) && opened1.buffers[scope].lines == [first];
    var began := Began(opened1, scope, rolling, true);
    assert scope !in began.0.buffers;
    var meanwhile := Began(began.0, scope, lost, true);
    assert meanwhile.0.buffers[scope].lines == [lost];
  }

  // ---------------------------------------------------------------- one section per write

  /** A write of this page and anchor, among the first `n`, that came back without an error. */
  ghost predicate Succeeded(st: State, n: nat, page: string, anchor: string) {
    exists j :: 0 <= j < n && j < |st.writes| && HasLanded(st, j, page, anchor)
  }

  predicate HasLanded(st: State, j: nat, page: string, anchor: string)
    requires j < |st.writes|
  {
    st.writes[j].page == page && st.writes[j].anchor == anchor && Lookup(st.outcomes, j) == Some(true)
  }

  /** One identity and page in write `i`, and the section was there when the write continues one. */
  ghost predicate WriteOk(st: State, i: nat)
    requires i < |st.writes|
  {
    var w := st.writes[i];
    Whole(w.lines, w.anchor, w.since, w.page) && (w.continued ==> Succeeded(st, i, w.page, w.anchor))
  }

  ghost predicate ContinuesOk(st: State, svc: Service, scope: Scope)
    requires scope in svc.buffers
  {
    svc.buffers[scope].continuation ==> Succeeded(st, |st.writes|, svc.buffers[scope].page, svc.buffers[scope].anchor)
  }

  /** Sections known to exist, and sections buffers are to continue, all come from landed writes. */
  ghost predicate KnownOk(st: State, svc: Service) {
    && (forall p :: p in svc.published ==> Succeeded(st, |st.writes|, p.0, p.1))
    && (forall scope :: scope in svc.buffers ==> ContinuesOk(st, svc, scope))
  }

  ghost predicate Sectioned(st: State) {
    KnownOk(st, st.svc) && forall i :: 0 <= i < |st.writes| ==> WriteOk(st, i)
  }

  lemma SucceededStays(st: State, after: State, n: nat, m: nat, page: string, anchor: string)
    requires st.writes <= after.writes && n <= m && Succeeded(st, n, page, anchor)
    requires forall k :: k in st.outcomes ==> k in after.outcomes && after.outcomes[k] == st.outcomes[k]
    ensures Succeeded(after, m, page, anchor)
  {
    var j :| 0 <= j < n && j < |st.writes| && HasLanded(st, j, page, anchor);
    assert HasLanded(after, j, page, anchor);
  }

  /** What a write may be given: one identity and page, and a section that exists if it is to continue one. */
  ghost predicate Fits(st: State, write: Option<Write>) {
    write.Some? ==>
      && Whole(write.value.lines, write.value.anchor, write.value.since, write.value.page)
      && (write.value.continued ==> Succeeded(st, |st.writes|, write.value.page, write.value.anchor))
  }

  lemma PoppedKnown(st: State, svc: Service, scope: Scope)
    requires KnownOk(st, svc)
    requires scope in svc.buffers ==> var b := svc.buffers[scope]; Whole(b.lines, b.anchor, b.since, b.page)
    ensures KnownOk(st, Popped(svc, scope, None).0) && Fits(st, Popped(svc, scope, None).1)
  {
    assert scope in svc.buffers ==> ContinuesOk(st, svc, scope);
    var after := Popped(svc, scope, None).0;
    forall s | s in after.buffers ensures ContinuesOk(st, after, s) {
      assert ContinuesOk(st, svc, s);
    }
  }

  lemma PlacedKnown(st: State, svc: Service, scope: Scope, line: Line, debounced: bool)
    requires ServiceOk(svc, debounced) && KnownOk(st, svc) && !RollsOver(svc, scope, line)
    ensures KnownOk(st, Placed(svc, scope, line, debounced).0) && Fits(st, Placed(svc, scope, line, debounced).1)
  {
    assert scope in svc.buffers ==> BufferOk(svc, scope) && ContinuesOk(st, svc, scope);
    var filled := Appended(svc, scope, line);
    forall s | s in filled.buffers ensures ContinuesOk(st, filled, s) {
      assert s in svc.buffers ==> ContinuesOk(st, svc, s);
    }
    if debounced {
      var after := Armed(filled, scope);
      forall s | s in after.buffers ensures ContinuesOk(st, after, s) {
        assert ContinuesOk(st, filled, s);
      }
    } else {
      PoppedKnown(st, filled, scope);
    }
  }

  lemma ResumedKnown(st: State, svc: Service, scope: Scope, closed: (string, string), line: Line, debounced: bool)
    requires ServiceOk(svc, debounced) && KnownOk(st, svc) && scope !in svc.buffers
    ensures KnownOk(st, Resumed(svc, scope, closed, line, debounced).0)
    ensures Fits(st, Resumed(svc, scope, closed, line, debounced).1)
  {
    var cleared := svc.(published := svc.published - {closed}, buffers := svc.buffers - {scope});
    assert cleared.buffers == svc.buffers;
    forall s | s in cleared.buffers ensures BufferOk(cleared, s) && ContinuesOk(st, cleared, s) {
      assert BufferOk(svc, s) && ContinuesOk(st, svc, s);
    }
    forall task | task in cleared.sleeping ensures FlusherOk(cleared, task) {
      assert FlusherOk(svc, task);
    }
    PlacedKnown(st, cleared, scope, line, debounced);
  }

  lemma BeganKnown(st: State, svc: Service, scope: Scope, line: Line, debounced: bool)
    requires ServiceOk(svc, debounced) && KnownOk(st, svc)
    ensures KnownOk(st, Began(svc, scope, line, debounced).0) && Fits(st, Began(svc, scope, line, debounced).1)
  {
    if RollsOver(svc, scope, line) {
      assert BufferOk(svc, scope);
      PoppedKnown(st, svc, scope);
    } else {
      PlacedKnown(st, svc, scope, line, debounced);
    }
  }

  /** `after` has the writes and outcomes of `st` and perhaps more. */
  ghost predicate Extends(st: State, after: State) {
    && st.writes <= after.writes
    && forall k :: k in st.outcomes ==> k in after.outcomes && after.outcomes[k] == st.outcomes[k]
  }

  lemma ExtendsKeepsWrites(st: State, after: State)
    requires Sectioned(st) && Extends(st, after)
    ensures forall i :: 0 <= i < |st.writes| ==> WriteOk(after, i)
  {
    forall i | 0 <= i < |st.writes| ensures WriteOk(after, i) {
      var w := st.writes[i];
      assert WriteOk(st, i);
      if w.continued {
        SucceededStays(st, after, i, i, w.page, w.anchor);
      }
    }
  }

  lemma ExtendsKeepsKnown(st: State, after: State, svc: Service)
    requires KnownOk(st, svc) && Extends(st, after)
    ensures KnownOk(after, svc)
  {
    var n, m := |st.writes|, |after.writes|;
    forall p | p in svc.published ensures Succeeded(after, m, p.0, p.1) {
      SucceededStays(st, after, n, m, p.0, p.1);
    }
    forall s | s in svc.buffers ensures ContinuesOk(after, svc, s) {
      assert ContinuesOk(st, svc, s);
      if svc.buffers[s].continuation {
        SucceededStays(st, after, n, m, svc.buffers[s].page, svc.buffers[s].anchor);
      }
    }
  }

  lemma LaunchSectioned(st: State, step: (Service, Option<Write>), after: State)
    requires Sectioned(st) && KnownOk(st, step.0) && Fits(st, step.1)
    requires after.svc == step.0 && after.writes == Launched(st, step).writes && after.outcomes == st.outcomes
    ensures Sectioned(after)
  {
    ExtendsKeepsWrites(st, after);
    ExtendsKeepsKnown(st, after, step.0);
    if step.1.Some? {
      var w := step.1.value;
      if w.continued {
        SucceededStays(st, after, |st.writes|, |st.writes|, w.page, w.anchor);
      }
      assert WriteOk(after, |st.writes|);
    }
  }

  lemma ConcludedSectioned(st: State, k: nat, ok: bool)
    requires Sectioned(st) && k < |st.writes| && k !in st.outcomes
    ensures Sectioned(Concluded(st, k, ok))
  {
    var after, w := Concluded(st, k, ok), st.writes[k];
    ExtendsKeepsWrites(st, after);
    ExtendsKeepsKnown(st, after, st.svc);
    if ok {
      assert HasLanded(after, k, w.page, w.anchor);
    }
    forall s | s in after.svc.buffers ensures ContinuesOk(after, after.svc, s) {
      assert ContinuesOk(after, st.svc, s);
    }
  }

  lemma FinishSectioned(c: Config, st: State, k: nat, ok: bool)
    requires Ready(c, st) && Sectioned(st) && k < |st.writes| && k !in st.outcomes
    ensures Sectioned(FinishStep(c, st, k, ok))
  {
    var done, w := Concluded(st, k, ok), st.writes[k];
    ConcludedSectioned(st, k, ok);
    ConcludedOk(c, st, k, ok);
    if w.scope in st.waiting && st.waiting[w.scope].attempt == k && st.waiting[w.scope].Rolling? {
      assert WaitOk(st, w.scope);
      var line, closed := st.waiting[w.scope].line, (w.page, w.anchor);
      ResumedKnown(done, done.svc, w.scope, closed, line, c.debounced);
      LaunchSectioned(done, Resumed(done.svc, w.scope, closed, line, c.debounced), FinishStep(c, st, k, ok));
    } else {
      LaunchSectioned(done, (done.svc, None), FinishStep(c, st, k, ok));
    }
  }

  lemma RecordSectioned(c: Config, st: State, a: Action)
    requires Ready(c, st) && Sectioned(st) && a.Record? && a.scope !in st.waiting
    ensures Sectioned(RecordStep(c, st, a))
  {
    var line := Line(Sessions.Advanced(st.sessions, a.scope, a.moment, c.ttl), a.page, a.text);
    BeganKnown(st, st.svc, a.scope, line, c.debounced);
    LaunchSectioned(st, Began(st.svc, a.scope, line, c.debounced), RecordStep(c, st, a));
  }

  lemma SectionedStep(c: Config, st: State, a: Action)
    requires Ready(c, st) && Sectioned(st)
    ensures Sectioned(Apply(c, st, a))
  {
    match a
    case Record(scope, moment, page, text) =>
      if scope !in st.waiting {
        RecordSectioned(c, st, a);
      }
    case Session(op) => LaunchSectioned(st, (st.svc, None), Apply(c, st, a));
    case Fire(task) =>
      if task in st.svc.sleeping {
        FlusherFiresOwnBuffer(st.svc, task, c.debounced);
        FlushSectioned(c, st, st.svc.sleeping[task]);
      }
    case Flush(scope) => FlushSectioned(c, st, scope);
    case Finish(k, ok) =>
      if k < |st.writes| && k !in st.outcomes {
        FinishSectioned(c, st, k, ok);
      }
  }

  lemma FlushSectioned(c: Config, st: State, scope: Scope)
    requires Ready(c, st) && Sectioned(st)
    ensures Sectioned(Launched(st, Popped(st.svc, scope, None)))
  {
    assert scope in st.svc.buffers ==> BufferOk(st.svc, scope);
    PoppedKnown(st, st.svc, scope);
    LaunchSectioned(st, Popped(st.svc, scope, None), Launched(st, Popped(st.svc, scope, None)));
  }

  /**
   No write mixes identities or pages, and a section is continued only after an earlier write of the
   same page and anchor came back without an error.
   */
  lemma {:induction false} SectionedRun(c: Config, st: State, actions: seq<Action>)
    requires Ready(c, st) && Sectioned(st)
    ensures Sectioned(Run(c, st, actions))
    decreases |actions|
  {
    if actions != [] {
      ReadyStep(c, st, actions[0]);
      SectionedStep(c, st, actions[0]);
      SectionedRun(c, Apply(c, st, actions[0]), actions[1..]);
    }
  }

  /** Whole runs: every delayed buffer has exactly one flusher asleep, and every write keeps to one section. */
  lemma EveryRun(c: Config, actions: seq<Action>)
    ensures Ready(c, Run(c, Init(), actions)) && Sectioned(Run(c, Init(), actions))
  {
    ReadyRun(c, Init(), actions);
    SectionedRun(c, Init(), actions);
  }

  // ---------------------------------------------------------------- what a call waits for

  /** A flush leaves the scope without a buffer, whatever that held, and other scopes with theirs. */
  lemma FlushEmptiesScope(svc: Service, scope: Scope, running: Option<nat>)
    ensures Popped(svc, scope, running).0.buffers == svc.buffers - {scope}
    ensures Popped(svc, scope, running).1.Some? <==> scope in svc.buffers && svc.buffers[scope].lines != []
  {
  }

  /** Every record that begins counts its message and records its line, under the session that the count left. */
  lemma RecordRecords(c: Config, st: State, a: Action)
    requires Ready(c, st) && a.Record? && a.scope !in st.waiting
    ensures var session := Sessions.Advanced(st.sessions, a.scope, a.moment, c.ttl);
      && Apply(c, st, a).recorded == st.recorded + [(a.scope, Line(session, a.page, a.text))]
      && Apply(c, st, a).sessions == st.sessions[a.scope := session]
  {
    RecordAwaitsItsWrite(c, st, a);
  }

  /** A flusher that wakes, or a flush, starts one write: all the lines its scope has buffered. */
  lemma FlushWrites(c: Config, st: State, a: Action, scope: Scope)
    requires Ready(c, st) && scope in st.svc.buffers
    requires a == Flush(scope) || (a.Fire? && Lookup(st.svc.sleeping, a.task) == Some(scope))
    ensures var b, after := st.svc.buffers[scope], Apply(c, st, a);
      && after.writes == st.writes + [Write(scope, b.anchor, b.since, b.page, b.continuation, b.lines)]
      && after.svc.buffers == st.svc.buffers - {scope}
      && (forall task :: task in after.svc.sleeping ==> after.svc.sleeping[task] != scope)
  {
    assert BufferOk(st.svc, scope);
    if a.Fire? {
      FlusherFiresOwnBuffer(st.svc, a.task, c.debounced);
    }
    forall task | task in Apply(c, st, a).svc.sleeping ensures Apply(c, st, a).svc.sleeping[task] != scope {
      assert FlusherOk(st.svc, task);
    }
  }

  /** A record that starts a write waits for that write, and one that starts none is over at its first await. */
  lemma RecordAwaitsItsWrite(c: Config, st: State, a: Action)
    requires Ready(c, st) && a.Record? && a.scope !in st.waiting
    ensures var after := Apply(c, st, a);
      if |after.writes| == |st.writes| then after.waiting == st.waiting
      else && after.writes[..|st.writes|] == st.writes && |after.writes| == |st.writes| + 1
           && a.scope in after.waiting && after.waiting[a.scope].attempt == |st.writes|
           && after.writes[|st.writes|].scope == a.scope
  {
    var line := Line(Sessions.Advanced(st.sessions, a.scope, a.moment, c.ttl), a.page, a.text);
    BeganOk(st.svc, a.scope, line, c.debounced);
  }

  /** Until that write comes back the record goes on waiting, and no other record of its scope begins. */
  lemma RecordGoesOnWaiting(c: Config, st: State, a: Action, scope: Scope)
    requires Ready(c, st) && scope in st.waiting && !(a.Finish? && a.attempt == st.waiting[scope].attempt)
    ensures scope in Apply(c, st, a).waiting && Apply(c, st, a).waiting[scope] == st.waiting[scope]
    ensures a.Record? && a.scope == scope ==> Apply(c, st, a) == st
  {
    assert WaitOk(st, scope);
    if a.Finish? && a.attempt < |st.writes| && a.attempt !in st.outcomes {
      OthersWaitStill(c, st, a.attempt, a.ok, scope);
    }
  }

  lemma OthersWaitStill(c: Config, st: State, k: nat, ok: bool, scope: Scope)
    requires Ready(c, st) && k < |st.writes| && scope in st.waiting && st.waiting[scope].attempt != k
    ensures scope in FinishStep(c, st, k, ok).waiting && FinishStep(c, st, k, ok).waiting[scope] == st.waiting[scope]
  {
  }

  /** When it comes back, the record waits no more, or for the write its own held line has started. */
  lemma RecordIsReleased(c: Config, st: State, ok: bool, scope: Scope)
    requires Ready(c, st) && scope in st.waiting
    ensures var k := st.waiting[scope].attempt;
      var after := Apply(c, st, Finish(k, ok));
      && k in after.outcomes && after.outcomes[k] == ok
      && if st.waiting[scope].Rolling? && !c.debounced
         then after.waiting == st.waiting[scope := Immediate(|st.writes|)] && |after.writes| == |st.writes| + 1
         else after.waiting == st.waiting - {scope} && after.writes == st.writes
  {
    assert WaitOk(st, scope);
    var k := st.waiting[scope].attempt;
    if st.waiting[scope].Rolling? {
      var done := Concluded(st, k, ok);
      ConcludedOk(c, st, k, ok);
      ResumedOk(done.svc, scope, (st.writes[k].page, st.writes[k].anchor), st.waiting[scope].line, c.debounced);
    }
  }

  // ---------------------------------------------------------------- when a section is continued

  /** Write `a.attempt` comes back now. */
  predicate Returns(st: State, a: Action) {
    a.Finish? && a.attempt < |st.writes| && a.attempt !in st.outcomes
  }

  /** A write of this page and anchor comes back without an error. */
  predicate Lands(st: State, a: Action, page: string, anchor: string) {
    Returns(st, a) && a.ok && st.writes[a.attempt].page == page && st.writes[a.attempt].anchor == anchor
  }

  /** The rollover flush of this page and anchor comes back: its record closes the section. */
  predicate Closes(st: State, a: Action, page: string, anchor: string) {
    && Returns(st, a) && st.writes[a.attempt].page == page && st.writes[a.attempt].anchor == anchor
    && st.writes[a.attempt].scope in st.waiting
    && st.waiting[st.writes[a.attempt].scope].Rolling? && st.waiting[st.writes[a.attempt].scope].attempt == a.attempt
  }

  lemma PlacedPublishesNothing(svc: Service, scope: Scope, line: Line, debounced: bool)
    ensures Placed(svc, scope, line, debounced).0.published == svc.published
  {
  }

  lemma RecordPublishesNothing(c: Config, st: State, a: Action)
    requires Ready(c, st) && a.Record? && a.scope !in st.waiting
    ensures RecordStep(c, st, a).svc.published == st.svc.published
  {
    var line := Line(Sessions.Advanced(st.sessions, a.scope, a.moment, c.ttl), a.page, a.text);
    assert a.scope in st.svc.buffers ==> BufferOk(st.svc, a.scope);
    PlacedPublishesNothing(st.svc, a.scope, line, c.debounced);
  }

  lemma FinishPublishes(c: Config, st: State, a: Action, page: string, anchor: string)
    requires Returns(st, a)
    ensures (page, anchor) in FinishStep(c, st, a.attempt, a.ok).svc.published
      <==> ((page, anchor) in st.svc.published || Lands(st, a, page, anchor)) && !Closes(st, a, page, anchor)
  {
    var done, w := Concluded(st, a.attempt, a.ok), st.writes[a.attempt];
    if w.scope in st.waiting && st.waiting[w.scope].Rolling? {
      PlacedPublishesNothing(
        done.svc.(published := done.svc.published - {(w.page, w.anchor)}, buffers := done.svc.buffers - {w.scope}),
        w.scope, st.waiting[w.scope].line, c.debounced);
    }
  }

  /** A section is known from a landed write of it on, and until a rollover closes it. */
  lemma KnownExactly(c: Config, st: State, a: Action, page: string, anchor: string)
    requires Ready(c, st)
    ensures (page, anchor) in Apply(c, st, a).svc.published
      <==> ((page, anchor) in st.svc.published || Lands(st, a, page, anchor)) && !Closes(st, a, page, anchor)
  {
    match a
    case Record(scope, _, _, _) =>
      if scope !in st.waiting {
        RecordPublishesNothing(c, st, a);
      }
    case Finish(_, _) =>
      if Returns(st, a) {
        FinishPublishes(c, st, a, page, anchor);
      }
    case _ =>
  }

  /** No rollover of this page and anchor comes back during the run. */
  predicate NeverCloses(c: Config, st: State, actions: seq<Action>, page: string, anchor: string)
    decreases |actions|
  {
    actions == []
    || (!Closes(st, actions[0], page, anchor) && NeverCloses(c, Apply(c, st, actions[0]), actions[1..], page, anchor))
  }

  lemma {:induction false} KnownStays(c: Config, st: State, actions: seq<Action>, page: string, anchor: string)
    requires Ready(c, st) && (page, anchor) in st.svc.published && NeverCloses(c, st, actions, page, anchor)
    ensures (page, anchor) in Run(c, st, actions).svc.published
    decreases |actions|
  {
    if actions != [] {
      ReadyStep(c, st, actions[0]);
      KnownExactly(c, st, actions[0], page, anchor);
      KnownStays(c, Apply(c, st, actions[0]), actions[1..], page, anchor);
    }
  }

  /** A line that finds no buffer opens one, or a write, that continues the section exactly when it is known. */
  lemma OpensContinuing(svc: Service, scope: Scope, line: Line, debounced: bool)
    requires scope !in svc.buffers
    ensures var (after, write) := Began(svc, scope, line, debounced);
      var known := (line.page, line.session.anchor) in svc.published;
      if debounced
      then && write == None && scope in after.buffers && after.buffers[scope].lines == [line]
           && after.buffers[scope].continuation == known
      else write.Some? && write.value.lines == [line] && write.value.continued == known
  {
  }

  /** A line of the identity and page at hand joins the buffer: nothing is written, and it still continues or not. */
  lemma BurstGrows(svc: Service, scope: Scope, line: Line)
    requires scope in svc.buffers
    requires svc.buffers[scope].anchor == line.session.anchor && svc.buffers[scope].page == line.page
    ensures var (after, write) := Began(svc, scope, line, true);
      && write == None && scope in after.buffers
      && after.buffers[scope].lines == svc.buffers[scope].lines + [line]
      && after.buffers[scope].continuation == svc.buffers[scope].continuation
  {
  }

  /**
   A conversation goes on in its section: after a write of its page and anchor has landed, whatever
   runs in between short of a rollover of that section, the next line of the same page and anchor that
   finds no buffer continues the section instead of starting it again.
   */
  lemma LandedSectionIsContinued(
      c: Config, before: seq<Action>, landing: Action, between: seq<Action>, scope: Scope, line: Line)
    requires var st := Run(c, Init(), before);
      && Lands(st, landing, line.page, line.session.anchor) && !Closes(st, landing, line.page, line.session.anchor)
      && NeverCloses(c, Apply(c, st, landing), between, line.page, line.session.anchor)
    requires scope !in Run(c, Apply(c, Run(c, Init(), before), landing), between).svc.buffers
    ensures var st := Run(c, Apply(c, Run(c, Init(), before), landing), between);
      var (after, write) := Began(st.svc, scope, line, c.debounced);
      if c.debounced then scope in after.buffers && after.buffers[scope].continuation
      else write.Some? && write.value.continued
  {
    var st := Run(c, Init(), before);
    ReadyRun(c, Init(), before);
    KnownExactly(c, st, landing, line.page, line.session.anchor);
    ReadyStep(c, st, landing);
    KnownStays(c, Apply(c, st, landing), between, line.page, line.session.anchor);
    OpensContinuing(Run(c, Apply(c, st, landing), between).svc, scope, line, c.debounced);
  }

  // ---------------------------------------------------------------- depths

  /** Depth 1, or one deeper than the line before and under the same identity. */
  predicate Deepens(lines: seq<Line>, k: nat)
    requires k < |lines|
  {
    var session := lines[k].session;
    || session.messageCount == 1
    || (k > 0 && Sessions.SameIdentity(lines[k - 1].session, session)
        && session.messageCount == lines[k - 1].session.messageCount + 1)
  }

  /** The scope's live count continues its last recorded line; a fresh identity has counted nothing. */
  ghost predicate Counted(st: State, s: Scope) {
    var lines := RecordedLines(st.recorded, s);
    && (forall k :: 0 <= k < |lines| ==> Deepens(lines, k))
    && (s in st.sessions && st.sessions[s].messageCount > 0 ==>
          && lines != [] && Sessions.SameIdentity(lines[|lines| - 1].session, st.sessions[s])
          && lines[|lines| - 1].session.messageCount == st.sessions[s].messageCount)
  }

  lemma RecordCounts(c: Config, st: State, a: Action, s: Scope)
    requires Counted(st, s) && a.Record?
    ensures Counted(RecordStep(c, st, a), s)
  {
    var session := Sessions.Advanced(st.sessions, a.scope, a.moment, c.ttl);
    Sessions.AdvancedCounts(st.sessions, a.scope, a.moment, c.ttl);
    var line := Line(session, a.page, a.text);
    RecordedGrows(st.recorded, a.scope, line, s);
    LaunchCountsNothing(st.(sessions := st.sessions[a.scope := session], recorded := st.recorded + [(a.scope, line)]),
                        Began(st.svc, a.scope, line, c.debounced));
    RecordCountsAs(st, RecordStep(c, st, a), a.scope, line, s);
  }

  lemma RecordCountsAs(st: State, after: State, scope: Scope, line: Line, s: Scope)
    requires Counted(st, s)
    requires after.sessions == st.sessions[scope := line.session]
    requires RecordedLines(after.recorded, s) == RecordedLines(st.recorded, s) + Only(s == scope, line)
    requires
      || line.session.messageCount == 1
      || (scope in st.sessions && Sessions.SameIdentity(line.session, st.sessions[scope])
          && line.session.messageCount == st.sessions[scope].messageCount + 1 > 1)
    ensures Counted(after, s)
  {
    var lines, grown := RecordedLines(st.recorded, s), RecordedLines(after.recorded, s);
    forall k | 0 <= k < |grown| ensures Deepens(grown, k) {
      assert k < |lines| ==> Deepens(lines, k);
    }
  }

  /** No other step records a line. */
  lemma OthersRecordNothing(c: Config, st: State, a: Action)
    requires !a.Record?
    ensures Apply(c, st, a).recorded == st.recorded
    ensures Apply(c, st, a).sessions
      == if a.Session? && a.op.verb != Sessions.Advance then Sessions.After(st.sessions, a.op, c.ttl) else st.sessions
  {
    match a
    case Session(_) =>
    case Fire(task) =>
      if task in st.svc.sleeping {
        LaunchCountsNothing(st, Fired(st.svc, task));
      }
    case Flush(scope) => LaunchCountsNothing(st, Popped(st.svc, scope, None));
    case Finish(k, ok) =>
      if k < |st.writes| && k !in st.outcomes {
        var done, w := Concluded(st, k, ok), st.writes[k];
        if w.scope in st.waiting && st.waiting[w.scope].Rolling? {
          LaunchCountsNothing(
            done, Resumed(done.svc, w.scope, (w.page, w.anchor), st.waiting[w.scope].line, c.debounced));
        }
      }
  }

  lemma LaunchCountsNothing(st: State, step: (Service, Option<Write>))
    ensures Launched(st, step).recorded == st.recorded && Launched(st, step).sessions == st.sessions
  {
  }

  lemma CountedStep(c: Config, st: State, a: Action, s: Scope)
    requires Counted(st, s)
    ensures Counted(Apply(c, st, a), s)
  {
    if !a.Record? {
      OthersRecordNothing(c, st, a);
      if a.Session? && a.op.verb != Sessions.Advance {
        Sessions.OthersKeepCount(st.sessions, a.op, c.ttl, s);
      }
    } else if a.scope !in st.waiting {
      RecordCounts(c, st, a, s);
    }
  }

  lemma {:induction false} CountedRun(c: Config, st: State, actions: seq<Action>, s: Scope)
    requires Counted(st, s)
    ensures Counted(Run(c, st, actions), s)
    decreases |actions|
  {
    if actions != [] {
      CountedStep(c, st, actions[0], s);
      CountedRun(c, Apply(c, st, actions[0]), actions[1..], s);
    }
  }

  /**
   What reaches the wiki of one scope, taken over its writes in order and then its buffer: each line
   is one deeper than the line before it under the same identity, or opens at depth 1.
   */
  lemma DepthsGrowByOne(c: Config, actions: seq<Action>, s: Scope, k: nat)
    requires k < |Kept(Run(c, Init(), actions), s)|
    ensures Deepens(Kept(Run(c, Init(), actions), s), k)
  {
    EveryLineOnceInOrder(c, actions, s);
    CountedRun(c, Init(), actions, s);
  }
}
