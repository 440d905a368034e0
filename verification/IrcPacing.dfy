/**
 Flood pacing on one IRC connection: a token bucket, and batches written whole under one lock.
 Times are reals; `sleep` returns no earlier than asked and the clock never runs backwards.
 */
module IrcPacing {
  datatype Config = Config(burst: nat, minInterval: real) {
    ghost predicate Valid() {
      burst >= 1 && minInterval > 0.0
    }
  }

  datatype Bucket = Bucket(allowance: real, lastSend: real)

  ghost predicate Sound(c: Config, b: Bucket) {
    0.0 <= b.allowance <= c.burst as real
  }

  function Min(x: real, y: real): real {
    if x < y then x else y
  }

  /** The tokens that `elapsed` seconds refill. */
  function Refill(elapsed: real, c: Config): real
    requires c.minInterval > 0.0
  {
    elapsed / c.minInterval
  }

  /** The seconds it takes to refill `missing` tokens. */
  function Delay(missing: real, c: Config): real {
    missing * c.minInterval
  }

  /** What the bucket holds at time `t`. */
  function Level(c: Config, b: Bucket, t: real): real
    requires c.minInterval > 0.0
  {
    Min(c.burst as real, b.allowance + Refill(t - b.lastSend, c))
  }

  /** `_await_turn` at time `now`: how long it sleeps, and the bucket it leaves. */
  function Turn(c: Config, b: Bucket, now: real): (r: (real, Bucket))
    requires c.minInterval > 0.0
  {
    var allowance := Level(c, b, now);
    if allowance < 1.0 then
      var wait := Delay(1.0 - allowance, c);
      (wait, Bucket(0.0, now + wait))
    else (0.0, Bucket(allowance - 1.0, now))
  }

  /** The recurrence alone: the bucket a turn leaves. */
  function TurnOf(c: Config): (Bucket, real) -> Bucket
    requires c.minInterval > 0.0
  {
    (b: Bucket, now: real) => Turn(c, b, now).1
  }

  class IrcConnection {
    const config: Config
    var allowance: real
    var lastSend: real

    ghost function View(): Bucket
      reads this
    {
      Bucket(allowance, lastSend)
    }

    constructor (config: Config, now: real)
      ensures this.config == config && View() == Bucket(config.burst as real, now)
    {
      this.config := config;
      allowance, lastSend := config.burst as real, now;
    }

    method AwaitTurn(now: real) returns (wait: real)
      requires config.Valid()
      modifies this
      ensures (wait, View()) == Turn(config, old(View()), now)
    {
      var room := Min(config.burst as real, allowance + Refill(now - lastSend, config));
      wait := 0.0;
      if room < 1.0 {
        wait := Delay(1.0 - room, config);
        allowance, lastSend := 0.0, now + wait;
      } else {
        allowance, lastSend := room - 1.0, now;
      }
    }
  }

  // ---------------------------------------------------------------- one bucket recurrence

  lemma DivSum(a: real, b: real, m: real)
    requires m > 0.0
    ensures a / m + b / m == (a + b) / m
  {
  }

  lemma RefillSum(a: real, b: real, c: Config)
    requires c.minInterval > 0.0
    ensures Refill(a, c) + Refill(b, c) == Refill(a + b, c)
  {
    DivSum(a, b, c.minInterval);
  }

  lemma RefillDelay(missing: real, c: Config)
    requires c.minInterval > 0.0
    ensures Refill(Delay(missing, c), c) == missing
    ensures missing >= 0.0 ==> Delay(missing, c) >= 0.0
  {
  }

  lemma DivMonotone(a: real, b: real, m: real)
    requires m > 0.0 && a <= b
    ensures a / m <= b / m
    ensures a < b ==> a / m < b / m
  {
  }

  lemma RefillMonotone(a: real, b: real, c: Config)
    requires c.minInterval > 0.0 && a <= b
    ensures Refill(a, c) <= Refill(b, c)
    ensures a < b ==> Refill(a, c) < Refill(b, c)
    ensures Refill(0.0, c) == 0.0
  {
    DivMonotone(a, b, c.minInterval);
  }

  /** A turn that must wait is granted when the missing part of the token has refilled. */
  lemma WaitTakesFirstToken(c: Config, b: Bucket, now: real)
    requires c.Valid() && Sound(c, b) && b.lastSend <= now && Level(c, b, now) < 1.0
    ensures var (wait, b') := Turn(c, b, now);
      && wait >= 0.0
      && Level(c, b, b'.lastSend) == 1.0
      && (forall t :: now <= t < b'.lastSend ==> Level(c, b, t) < 1.0)
  {
    var raw := b.allowance + Refill(now - b.lastSend, c);
    var wait := Delay(1.0 - raw, c);
    var g := now + wait;
    RefillDelay(1.0 - raw, c);
    RefillSum(now - b.lastSend, wait, c);
    assert (now - b.lastSend) + wait == g - b.lastSend;
    assert b.allowance + Refill(g - b.lastSend, c) == 1.0;
    forall t | now <= t < g
      ensures Level(c, b, t) < 1.0
    {
      RefillMonotone(t - b.lastSend, g - b.lastSend, c);
    }
  }

  /**
   Both branches are one recurrence: the grant is the first moment from `now` on at which the
   bucket holds a token, and it takes exactly that token.
   */
  lemma TurnTakesFirstToken(c: Config, b: Bucket, now: real)
    requires c.Valid() && Sound(c, b) && b.lastSend <= now
    ensures var (wait, b') := Turn(c, b, now);
      && Sound(c, b')
      && b'.lastSend == now + wait && wait >= 0.0
      && b'.allowance == Level(c, b, b'.lastSend) - 1.0
      && (forall t :: now <= t < b'.lastSend ==> Level(c, b, t) < 1.0)
  {
    RefillMonotone(0.0, now - b.lastSend, c);
    if Level(c, b, now) < 1.0 {
      WaitTakesFirstToken(c, b, now);
    }
  }

  // ---------------------------------------------------------------- senders under the lock

  /** One line put on the wire: its batch, when its turn was asked for, granted, and written. */
  datatype Sent = Sent(batch: nat, line: string, now: real, grant: real, at: real)

  datatype Session = Session(batch: nat, lines: seq<string>, count: nat)

  datatype Holder = Nobody | Ready | Waiting(now: real, next: Bucket)

  datatype State = State(
    bucket: Bucket,
    clock: real,
    holder: Holder,
    queued: map<nat, seq<string>>, // batches waiting for the lock
    nextId: nat,
    sessions: seq<Session>,        // batches in the order they took the lock; the last may be open
    broken: set<nat>,              // batches cut short by a lost connection or a cancellation
    wire: seq<Sent>)

  datatype Action =
    | Submit(lines: seq<string>)
    | Acquire(batch: nat)
    | Ask(now: real)
    | Write(at: real, ok: bool) // `drain` returned, or the connection broke
    | Cancel                    // the holder is cancelled at an await

  function Init(c: Config, now: real): State {
    State(Bucket(c.burst as real, now), now, Nobody, map[], 0, [], {}, [])
  }

  function Open(st: State): Session
    requires st.sessions != []
  {
    st.sessions[|st.sessions| - 1]
  }

  function WriteStep(st: State, at: real, ok: bool): State
    requires st.sessions != [] && Open(st).count < |Open(st).lines| && st.holder.Waiting?
  {
    var s := Open(st);
    var s' := s.(count := s.count + 1);
    st.(bucket := st.holder.next,
        clock := at,
        wire := st.wire + [Sent(s.batch, s.lines[s.count], st.holder.now, st.holder.next.lastSend, at)],
        sessions := st.sessions[..|st.sessions| - 1] + [s'],
        broken := if ok then st.broken else st.broken + {s.batch},
        holder := if ok && s'.count < |s'.lines| then Ready else Nobody)
  }

  /** An action that is not enabled, or that would turn the clock back, leaves the state as it is. */
  function Apply(c: Config, st: State, a: Action): State
    requires c.minInterval > 0.0
  {
    match a
    case Submit(lines) => st.(queued := st.queued[st.nextId := lines], nextId := st.nextId + 1)
    case Acquire(batch) =>
      if st.holder == Nobody && batch in st.queued then
        st.(queued := st.queued - {batch},
            sessions := st.sessions + [Session(batch, st.queued[batch], 0)],
            holder := if st.queued[batch] == [] then Nobody else Ready)
      else st
    case Ask(now) =>
      if st.holder == Ready && now >= st.clock then
        st.(clock := now, holder := Waiting(now, TurnOf(c)(st.bucket, now)))
      else st
    case Write(at, ok) =>
      if st.holder.Waiting? && at >= st.clock && at >= st.holder.next.lastSend
         && st.sessions != [] && Open(st).count < |Open(st).lines|
      then WriteStep(st, at, ok)
      else st
    case Cancel =>
      if st.holder != Nobody && st.sessions != []
      then st.(holder := Nobody, broken := st.broken + {Open(st).batch})
      else st
  }

  function Run(c: Config, st: State, actions: seq<Action>): State
    requires c.minInterval > 0.0
    decreases |actions|
  {
    if actions == [] then st else Run(c, Apply(c, st, actions[0]), actions[1..])
  }

  /** The lines a list of sessions puts on the wire, session after session. */
  function Transcript(sessions: seq<Session>): seq<(nat, string)>
    requires forall k :: 0 <= k < |sessions| ==> sessions[k].count <= |sessions[k].lines|
  {
    if sessions == [] then []
    else
      var last := sessions[|sessions| - 1];
      Transcript(sessions[..|sessions| - 1])
      + seq(last.count, k requires 0 <= k < last.count => (last.batch, last.lines[k]))
  }

  ghost predicate WireWhole(st: State) {
    && SessionsOk(st)
    && OnWire(st.sessions, st.wire)
    && (st.holder != Nobody ==> st.sessions != [] && Open(st).count < |Open(st).lines|)
  }

  /** A session that is over: all its lines were written, or it was cut short. */
  ghost predicate SessionOk(st: State, k: nat)
    requires k < |st.sessions|
  {
    var s := st.sessions[k];
    && s.count <= |s.lines| && s.batch < st.nextId && s.batch !in st.queued
    && (s.count == |s.lines| || s.batch in st.broken || (k == |st.sessions| - 1 && st.holder != Nobody))
  }

  ghost predicate SessionsOk(st: State) {
    && (forall k :: 0 <= k < |st.sessions| ==> SessionOk(st, k))
    && (forall j, k :: 0 <= j < k < |st.sessions| ==> st.sessions[j].batch != st.sessions[k].batch)
    && (forall id :: id in st.queued ==> id < st.nextId)
  }

  /** The wire carries the sessions' lines, in order and no others. */
  ghost predicate OnWire(sessions: seq<Session>, wire: seq<Sent>) {
    && (forall k :: 0 <= k < |sessions| ==> sessions[k].count <= |sessions[k].lines|)
    && |wire| == |Transcript(sessions)|
    && forall k :: 0 <= k < |wire| ==> Transcript(sessions)[k] == (wire[k].batch, wire[k].line)
  }

  /** One line more of the last session. */
  lemma TranscriptGrows(front: seq<Session>, s: Session)
    requires forall k :: 0 <= k < |front| ==> front[k].count <= |front[k].lines|
    requires s.count < |s.lines|
    ensures Transcript(front + [s.(count := s.count + 1)]) == Transcript(front + [s]) + [(s.batch, s.lines[s.count])]
  {
    var longer := s.(count := s.count + 1);
    assert (front + [s])[..|front|] == front && (front + [longer])[..|front|] == front;
  }

  lemma WireGrowsBy(front: seq<Session>, s: Session, wire: seq<Sent>, sent: Sent)
    requires OnWire(front + [s], wire) && s.count < |s.lines|
    requires sent.batch == s.batch && sent.line == s.lines[s.count]
    ensures OnWire(front + [s.(count := s.count + 1)], wire + [sent])
  {
    forall k | 0 <= k < |front| ensures front[k].count <= |front[k].lines| {
      assert (front + [s])[k] == front[k];
    }
    TranscriptGrows(front, s);
  }

  lemma WriteSessions(st: State, at: real, ok: bool)
    requires SessionsOk(st) && st.sessions != [] && Open(st).count < |Open(st).lines| && st.holder.Waiting?
    ensures SessionsOk(WriteStep(st, at, ok))
  {
    var st' := WriteStep(st, at, ok);
    forall k | 0 <= k < |st'.sessions| ensures SessionOk(st', k) {
      assert SessionOk(st, k);
    }
    assert forall k :: 0 <= k < |st.sessions| ==> st'.sessions[k].batch == st.sessions[k].batch;
  }

  lemma WriteWhole(st: State, at: real, ok: bool)
    requires WireWhole(st) && st.holder.Waiting?
    ensures WireWhole(WriteStep(st, at, ok))
  {
    var n, s := |st.sessions|, Open(st);
    assert st.sessions == st.sessions[..n - 1] + [s];
    WriteSessions(st, at, ok);
    WireGrowsBy(st.sessions[..n - 1], s, st.wire,
                Sent(s.batch, s.lines[s.count], st.holder.now, st.holder.next.lastSend, at));
  }

  /** The sessions stay as they are: batches may queue up, and the open session goes on or is cut short. */
  lemma SameSessions(st: State, after: State)
    requires SessionsOk(st) && after.sessions == st.sessions && st.nextId <= after.nextId && st.broken <= after.broken
    requires forall id :: id in after.queued ==> id in st.queued || st.nextId <= id < after.nextId
    requires st.holder != Nobody && st.sessions != [] ==> after.holder != Nobody || Open(st).batch in after.broken
    ensures SessionsOk(after)
  {
    forall k | 0 <= k < |after.sessions| ensures SessionOk(after, k) {
      assert SessionOk(st, k);
    }
  }

  lemma AcquireSessions(st: State, after: State, batch: nat)
    requires SessionsOk(st) && st.holder == Nobody && batch in st.queued
    requires after.sessions == st.sessions + [Session(batch, st.queued[batch], 0)]
    requires after.queued == st.queued - {batch} && after.nextId == st.nextId && after.broken == st.broken
    requires after.holder == if st.queued[batch] == [] then Nobody else Ready
    ensures SessionsOk(after)
  {
    forall k | 0 <= k < |after.sessions| ensures SessionOk(after, k) {
      assert k < |st.sessions| ==> SessionOk(st, k);
    }
    forall j, k | 0 <= j < k < |after.sessions| ensures after.sessions[j].batch != after.sessions[k].batch {
      assert SessionOk(st, j);
    }
  }

  lemma AcquireWhole(c: Config, st: State, batch: nat)
    requires c.minInterval > 0.0
    requires WireWhole(st) && st.holder == Nobody && batch in st.queued
    ensures WireWhole(Apply(c, st, Acquire(batch)))
  {
    var after := Apply(c, st, Acquire(batch));
    AcquireSessions(st, after, batch);
    assert after.sessions[..|st.sessions|] == st.sessions;
    assert Transcript(after.sessions) == Transcript(st.sessions);
  }

  lemma WholeStep(c: Config, st: State, a: Action)
    requires c.minInterval > 0.0 && WireWhole(st)
    ensures WireWhole(Apply(c, st, a))
  {
    match a
    case Submit(_) => SameSessions(st, Apply(c, st, a));
    case Acquire(batch) =>
      if st.holder == Nobody && batch in st.queued {
        AcquireWhole(c, st, batch);
      }
    case Ask(_) => SameSessions(st, Apply(c, st, a));
    case Write(at, ok) =>
      if Apply(c, st, a) != st {
        WriteWhole(st, at, ok);
      }
    case Cancel => SameSessions(st, Apply(c, st, a));
  }

  /**
   Whatever the interleaving, batches reach the wire one after the other, each once, each as an
   unbroken prefix of its lines, and the whole of them unless it was cut short or is still open.
   */
  lemma {:induction false} BatchesStayWhole(c: Config, st: State, actions: seq<Action>)
    requires c.minInterval > 0.0 && WireWhole(st)
    ensures WireWhole(Run(c, st, actions))
    decreases |actions|
  {
    if actions != [] {
      WholeStep(c, st, actions[0]);
      BatchesStayWhole(c, Apply(c, st, actions[0]), actions[1..]);
    }
  }

  // ---------------------------------------------------------------- a batch goes out whole

  /** What alone cuts a batch short: a connection that breaks under it, or a cancellation. */
  predicate Cuts(a: Action) {
    a == Cancel || (a.Write? && !a.ok)
  }

  /** A cut leaves the batch among the broken and gives up the lock; nothing else breaks anything. */
  lemma OnlyCutsBreak(c: Config, st: State, a: Action)
    requires c.minInterval > 0.0
    ensures !Cuts(a) ==> Apply(c, st, a).broken == st.broken
    ensures Cuts(a) && Apply(c, st, a) != st && st.sessions != [] ==>
      Apply(c, st, a).broken == st.broken + {Open(st).batch} && Apply(c, st, a).holder == Nobody
    ensures a == Cancel ==> (Apply(c, st, a) != st <==> st.holder != Nobody && st.sessions != [])
  {
  }

  /** Without a cut, every batch that took the lock is on the wire to its last line, but for the one still open. */
  lemma {:induction false} UncutBatchesAreWhole(c: Config, st: State, actions: seq<Action>, k: nat)
    requires c.minInterval > 0.0 && WireWhole(st) && st.broken == {}
    requires forall a :: a in actions ==> !Cuts(a)
    requires k < |Run(c, st, actions).sessions|
    ensures var end := Run(c, st, actions);
      end.sessions[k].count == |end.sessions[k].lines| || (k == |end.sessions| - 1 && end.holder != Nobody)
    decreases |actions|
  {
    if actions == [] {
      assert SessionOk(st, k);
    } else {
      WholeStep(c, st, actions[0]);
      OnlyCutsBreak(c, st, actions[0]);
      UncutBatchesAreWhole(c, Apply(c, st, actions[0]), actions[1..], k);
    }
  }

  /** What the wire carries: each line with its batch. */
  function Carried(wire: seq<Sent>): seq<(nat, string)> {
    seq(|wire|, k requires 0 <= k < |wire| => (wire[k].batch, wire[k].line))
  }

  /** The lines a batch has left. */
  function Remaining(s: Session): seq<(nat, string)>
    decreases |s.lines| - s.count
  {
    if s.count >= |s.lines| then [] else [(s.batch, s.lines[s.count])] + Remaining(s.(count := s.count + 1))
  }

  function WriteMoment(c: Config, st: State): real
    requires c.minInterval > 0.0
  {
    var granted := TurnOf(c)(st.bucket, st.clock).lastSend;
    if granted < st.clock then st.clock else granted
  }

  /** The holder asks at once and writes when its turn has come. */
  function LineOut(c: Config, st: State): State
    requires c.minInterval > 0.0
  {
    Apply(c, Apply(c, st, Ask(st.clock)), Write(WriteMoment(c, st), true))
  }

  /** The actions that put `n` lines on the wire. */
  function Turns(c: Config, st: State, n: nat): seq<Action>
    requires c.minInterval > 0.0
    decreases n
  {
    if n == 0 then []
    else [Ask(st.clock), Write(WriteMoment(c, st), true)] + Turns(c, LineOut(c, st), n - 1)
  }

  lemma TurnsRun(c: Config, st: State, n: nat)
    requires c.minInterval > 0.0 && n > 0
    ensures Run(c, st, Turns(c, st, n)) == Run(c, LineOut(c, st), Turns(c, LineOut(c, st), n - 1))
  {
    var write, rest := Write(WriteMoment(c, st), true), Turns(c, LineOut(c, st), n - 1);
    var all := Turns(c, st, n);
    assert all[0] == Ask(st.clock) && all[1..] == [write] + rest;
    assert ([write] + rest)[0] == write && ([write] + rest)[1..] == rest;
    assert Run(c, st, all) == Run(c, Apply(c, st, Ask(st.clock)), [write] + rest);
  }

  /** One line of the batch that holds the lock. */
  lemma LineGoesOut(c: Config, st: State)
    requires c.minInterval > 0.0 && WireWhole(st) && st.holder == Ready
    ensures var s, end := Open(st), LineOut(c, st);
      && WireWhole(end) && end.broken == st.broken
      && Carried(end.wire) == Carried(st.wire) + [(s.batch, s.lines[s.count])]
      && end.sessions != [] && Open(end) == s.(count := s.count + 1)
      && end.holder == (if s.count + 1 < |s.lines| then Ready else Nobody)
  {
    WholeStep(c, st, Ask(st.clock));
    WholeStep(c, Apply(c, st, Ask(st.clock)), Write(WriteMoment(c, st), true));
  }

  lemma NoTurnsLeft(c: Config, st: State)
    requires c.minInterval > 0.0
    ensures Run(c, st, Turns(c, st, 0)) == st
  {
  }

  lemma RemainingNext(before: seq<(nat, string)>, s: Session)
    requires s.count < |s.lines|
    ensures before + Remaining(s)
      == (before + [(s.batch, s.lines[s.count])]) + Remaining(s.(count := s.count + 1))
    ensures s.count + 1 == |s.lines| ==> Remaining(s.(count := s.count + 1)) == []
  {
  }

  /**
   Progress: a batch that holds the lock and is not cut short puts every line it has left on the wire,
   in order and nothing in between, and then lets the lock go.
   */
  lemma {:induction false} BatchGoesOut(c: Config, st: State, n: nat)
    requires c.minInterval > 0.0 && WireWhole(st) && st.holder == Ready && n == |Open(st).lines| - Open(st).count
    ensures var end := Run(c, st, Turns(c, st, n));
      && end.holder == Nobody && end.broken == st.broken
      && Carried(end.wire) == Carried(st.wire) + Remaining(Open(st))
    decreases n
  {
    LineGoesOut(c, st);
    TurnsRun(c, st, n);
    RemainingNext(Carried(st.wire), Open(st));
    if n == 1 {
      NoTurnsLeft(c, LineOut(c, st));
    } else {
      BatchGoesOut(c, LineOut(c, st), n - 1);
    }
  }

  lemma InitWhole(c: Config, start: real)
    ensures WireWhole(Init(c, start))
  {
  }

  /** The lock is free, so a submitted batch takes it: it is open with all its lines to go. */
  lemma TakesTheLock(c: Config, st: State, lines: seq<string>)
    requires c.minInterval > 0.0 && WireWhole(st) && st.holder == Nobody
    ensures var ready := Apply(c, Apply(c, st, Submit(lines)), Acquire(st.nextId));
      && WireWhole(ready) && ready.wire == st.wire && ready.broken == st.broken
      && ready.sessions != [] && Open(ready) == Session(st.nextId, lines, 0)
      && ready.holder == (if lines == [] then Nobody else Ready)
  {
    WholeStep(c, st, Submit(lines));
    WholeStep(c, Apply(c, st, Submit(lines)), Acquire(st.nextId));
  }

  /**
   End to end, in every run: a batch submitted while the lock is free takes it and goes out in full,
   line after line and nothing in between, and the lock is free again.
   */
  lemma SubmittedBatchGoesOut(c: Config, start: real, before: seq<Action>, lines: seq<string>)
    requires c.minInterval > 0.0 && Run(c, Init(c, start), before).holder == Nobody
    ensures var st := Run(c, Init(c, start), before);
      var ready := Apply(c, Apply(c, st, Submit(lines)), Acquire(st.nextId));
      var end := Run(c, ready, Turns(c, ready, |lines|));
      && Carried(end.wire) == Carried(st.wire) + Remaining(Session(st.nextId, lines, 0))
      && end.holder == Nobody && end.broken == st.broken
  {
    InitWhole(c, start);
    BatchesStayWhole(c, Init(c, start), before);
    var st := Run(c, Init(c, start), before);
    TakesTheLock(c, st, lines);
    GoesOutFrom(c, Apply(c, Apply(c, st, Submit(lines)), Acquire(st.nextId)), Session(st.nextId, lines, 0));
  }

  lemma GoesOutFrom(c: Config, ready: State, s: Session)
    requires c.minInterval > 0.0 && WireWhole(ready) && ready.sessions != [] && Open(ready) == s && s.count == 0
    requires ready.holder == if s.lines == [] then Nobody else Ready
    ensures var end := Run(c, ready, Turns(c, ready, |s.lines|));
      && end.holder == Nobody && end.broken == ready.broken
      && Carried(end.wire) == Carried(ready.wire) + Remaining(s)
  {
    if s.lines == [] {
      NoTurnsLeft(c, ready);
    } else {
      BatchGoesOut(c, ready, |s.lines|);
    }
  }

  // ---------------------------------------------------------------- the rate

  /** The bucket after the turns of `wire`. */
  ghost function After(turn: (Bucket, real) -> Bucket, b0: Bucket, wire: seq<Sent>): Bucket {
    if wire == [] then b0
    else turn(After(turn, b0, wire[..|wire| - 1]), wire[|wire| - 1].now)
  }

  /** The k-th line asked no earlier than the line before it was written, and was written no earlier than granted. */
  ghost predicate PacedAt(turn: (Bucket, real) -> Bucket, b0: Bucket, wire: seq<Sent>, k: nat)
    requires k < |wire|
  {
    && After(turn, b0, wire[..k]).lastSend <= wire[k].now
    && (k > 0 ==> wire[k - 1].at <= wire[k].now)
    && wire[k].grant == After(turn, b0, wire[..k + 1]).lastSend <= wire[k].at
  }

  /** No line was written after `now`, and the bucket was not touched after it either. */
  ghost predicate QuietSince(bucket: Bucket, wire: seq<Sent>, now: real) {
    bucket.lastSend <= now && (wire != [] ==> wire[|wire| - 1].at <= now)
  }

  ghost predicate Paced(turn: (Bucket, real) -> Bucket, b0: Bucket, st: State) {
    && st.bucket == After(turn, b0, st.wire)
    && (forall k :: 0 <= k < |st.wire| ==> PacedAt(turn, b0, st.wire, k))
    && QuietSince(st.bucket, st.wire, st.clock)
    && (st.holder.Waiting? ==>
          && st.holder.next == turn(st.bucket, st.holder.now)
          && st.holder.now <= st.clock
          && QuietSince(st.bucket, st.wire, st.holder.now))
  }

  /** What comes after a line does not change how it was paced. */
  lemma EarlierStillPaced(turn: (Bucket, real) -> Bucket, b0: Bucket, wire: seq<Sent>, s: Sent, k: nat)
    requires k < |wire| && PacedAt(turn, b0, wire, k)
    ensures PacedAt(turn, b0, wire + [s], k)
  {
    assert (wire + [s])[..k] == wire[..k] && (wire + [s])[..k + 1] == wire[..k + 1];
  }

  lemma AfterOneMore(turn: (Bucket, real) -> Bucket, b0: Bucket, wire: seq<Sent>, s: Sent)
    ensures After(turn, b0, wire + [s]) == turn(After(turn, b0, wire), s.now)
  {
    assert (wire + [s])[..|wire|] == wire;
  }

  lemma LastPaced(turn: (Bucket, real) -> Bucket, b0: Bucket, wire: seq<Sent>, s: Sent)
    requires QuietSince(After(turn, b0, wire), wire, s.now)
    requires s.grant == turn(After(turn, b0, wire), s.now).lastSend <= s.at
    ensures PacedAt(turn, b0, wire + [s], |wire|)
  {
    AfterOneMore(turn, b0, wire, s);
    var longer, n := wire + [s], |wire|;
    assert longer[..n] == wire && longer[..n + 1] == longer;
  }

  /** One line more, granted by the bucket the lines before it leave. */
  lemma WireGrows(turn: (Bucket, real) -> Bucket, b0: Bucket, wire: seq<Sent>, s: Sent)
    requires forall k :: 0 <= k < |wire| ==> PacedAt(turn, b0, wire, k)
    requires QuietSince(After(turn, b0, wire), wire, s.now)
    requires s.grant == turn(After(turn, b0, wire), s.now).lastSend <= s.at
    ensures After(turn, b0, wire + [s]) == turn(After(turn, b0, wire), s.now)
    ensures forall k :: 0 <= k <= |wire| ==> PacedAt(turn, b0, wire + [s], k)
  {
    AfterOneMore(turn, b0, wire, s);
    LastPaced(turn, b0, wire, s);
    forall k | 0 <= k < |wire|
      ensures PacedAt(turn, b0, wire + [s], k)
    {
      EarlierStillPaced(turn, b0, wire, s, k);
    }
  }

  lemma WritePaced(turn: (Bucket, real) -> Bucket, b0: Bucket, st: State, at: real, ok: bool)
    requires Paced(turn, b0, st) && st.holder.Waiting? && st.clock <= at && st.holder.next.lastSend <= at
    requires st.sessions != [] && Open(st).count < |Open(st).lines|
    ensures Paced(turn, b0, WriteStep(st, at, ok))
  {
    var s := Open(st);
    WireGrows(turn, b0, st.wire, Sent(s.batch, s.lines[s.count], st.holder.now, st.holder.next.lastSend, at));
  }

  lemma PacedStep(c: Config, b0: Bucket, st: State, a: Action)
    requires c.Valid() && Paced(TurnOf(c), b0, st)
    ensures Paced(TurnOf(c), b0, Apply(c, st, a))
  {
    if a.Write? && Apply(c, st, a) != st {
      WritePaced(TurnOf(c), b0, st, a.at, a.ok);
    }
  }

  lemma {:induction false} PacedRun(c: Config, b0: Bucket, st: State, actions: seq<Action>)
    requires c.Valid() && Paced(TurnOf(c), b0, st)
    ensures Paced(TurnOf(c), b0, Run(c, st, actions))
    decreases |actions|
  {
    if actions != [] {
      PacedStep(c, b0, st, actions[0]);
      PacedRun(c, b0, Apply(c, st, actions[0]), actions[1..]);
    }
  }

  lemma {:induction false} SoundAfter(c: Config, b0: Bucket, wire: seq<Sent>, k: nat)
    requires c.Valid() && Sound(c, b0) && k <= |wire|
    requires forall i :: 0 <= i < |wire| ==> PacedAt(TurnOf(c), b0, wire, i)
    ensures Sound(c, After(TurnOf(c), b0, wire[..k]))
  {
    if k > 0 {
      SoundAfter(c, b0, wire, k - 1);
      assert PacedAt(TurnOf(c), b0, wire, k - 1);
      assert wire[..k][..k - 1] == wire[..k - 1];
      TurnTakesFirstToken(c, After(TurnOf(c), b0, wire[..k - 1]), wire[k - 1].now);
    }
  }

  /** From grant i to grant j the bucket refilled no more than time allows and paid for every line. */
  lemma {:induction false} Ledger(c: Config, b0: Bucket, wire: seq<Sent>, i: nat, j: nat)
    requires c.Valid() && Sound(c, b0) && i <= j < |wire|
    requires forall k :: 0 <= k < |wire| ==> PacedAt(TurnOf(c), b0, wire, k)
    ensures After(TurnOf(c), b0, wire[..j + 1]).allowance
            <= c.burst as real - 1.0 + Refill(wire[j].grant - wire[i].grant, c) - (j - i) as real
    ensures wire[i].grant <= wire[j].grant
    decreases j
  {
    var before := After(TurnOf(c), b0, wire[..j]);
    assert PacedAt(TurnOf(c), b0, wire, j);
    assert wire[..j + 1][..j] == wire[..j];
    SoundAfter(c, b0, wire, j);
    TurnTakesFirstToken(c, before, wire[j].now);
    if i < j {
      Ledger(c, b0, wire, i, j - 1);
      assert PacedAt(TurnOf(c), b0, wire, j - 1);
      assert before.lastSend == wire[j - 1].grant;
      RefillSum(wire[j - 1].grant - wire[i].grant, wire[j].grant - wire[j - 1].grant, c);
      assert (wire[j - 1].grant - wire[i].grant) + (wire[j].grant - wire[j - 1].grant) == wire[j].grant - wire[i].grant;
    }
  }

  /**
   The pacing bound, over every run: a window of length `span` holds at most
   `burst + span / minInterval` grants, and at most one more line actually written.
   */
  lemma PacingBound(c: Config, start: real, actions: seq<Action>, i: nat, j: nat, from: real, span: real)
    requires c.Valid() && span >= 0.0
    requires var wire := Run(c, Init(c, start), actions).wire; i <= j < |wire|
    ensures var wire := Run(c, Init(c, start), actions).wire;
      && (from <= wire[i].grant && wire[j].grant <= from + span ==>
            (j - i + 1) as real <= c.burst as real + Refill(span, c))
      && (from <= wire[i].at && wire[j].at <= from + span ==>
            (j - i + 1) as real <= c.burst as real + Refill(span, c) + 1.0)
  {
    var st0 := Init(c, start);
    PacedRun(c, st0.bucket, st0, actions);
    var wire := Run(c, st0, actions).wire;
    GrantBound(c, st0.bucket, wire, i, j);
    RefillMonotone(0.0, span, c);
    if from <= wire[i].grant && wire[j].grant <= from + span {
      RefillMonotone(wire[j].grant - wire[i].grant, span, c);
    }
    if from <= wire[i].at && wire[j].at <= from + span && i < j {
      GrantBound(c, st0.bucket, wire, i + 1, j);
      WriteWindow(c, st0.bucket, wire, i, j);
      RefillMonotone(wire[j].grant - wire[i + 1].grant, span, c);
    }
  }

  /** The line after one already written is granted later than that writing; the last one before its own. */
  lemma WriteWindow(c: Config, b0: Bucket, wire: seq<Sent>, i: nat, j: nat)
    requires c.Valid() && Sound(c, b0) && i < j < |wire|
    requires forall k :: 0 <= k < |wire| ==> PacedAt(TurnOf(c), b0, wire, k)
    ensures wire[i].at <= wire[i + 1].grant && wire[j].grant <= wire[j].at
  {
    assert PacedAt(TurnOf(c), b0, wire, i + 1) && PacedAt(TurnOf(c), b0, wire, j);
    SoundAfter(c, b0, wire, i + 1);
    assert wire[..i + 2][..i + 1] == wire[..i + 1];
    TurnTakesFirstToken(c, After(TurnOf(c), b0, wire[..i + 1]), wire[i + 1].now);
  }

  lemma GrantBound(c: Config, b0: Bucket, wire: seq<Sent>, i: nat, j: nat)
    requires c.Valid() && Sound(c, b0) && i <= j < |wire|
    requires forall k :: 0 <= k < |wire| ==> PacedAt(TurnOf(c), b0, wire, k)
    ensures (j - i + 1) as real <= c.burst as real + Refill(wire[j].grant - wire[i].grant, c)
  {
    Ledger(c, b0, wire, i, j);
    SoundAfter(c, b0, wire, j + 1);
  }

  /** The bucket of a fresh connection after `n` turns, each asked for as soon as the one before was granted. */
  function Hurried(c: Config, start: real, n: nat): Bucket
    requires c.minInterval > 0.0
  {
    if n == 0 then Bucket(c.burst as real, start)
    else
      var b := Hurried(c, start, n - 1);
      Turn(c, b, b.lastSend).1
  }

  lemma Saturated(c: Config, b: Bucket)
    requires c.Valid() && b.allowance == 0.0
    ensures Turn(c, b, b.lastSend) == (c.minInterval, Bucket(0.0, b.lastSend + c.minInterval))
  {
    RefillMonotone(0.0, 0.0, c);
    assert Delay(1.0, c) == c.minInterval;
  }

  /**
   The bound is attained: the first `burst` lines of a fresh connection are granted at once, and from
   then on one line every `minInterval`, so `burst + k` grants lie within `k` intervals of the start.
   */
  lemma {:induction false} BoundIsAttained(c: Config, start: real, n: nat)
    requires c.Valid()
    ensures Hurried(c, start, n) ==
      if n <= c.burst then Bucket((c.burst - n) as real, start)
      else Bucket(0.0, start + (n - c.burst) as real * c.minInterval)
  {
    if n > 0 {
      var b := Hurried(c, start, n - 1);
      BoundIsAttained(c, start, n - 1);
      if n <= c.burst {
        RefillMonotone(0.0, 0.0, c);
        assert Level(c, b, b.lastSend) == (c.burst - n + 1) as real;
      } else {
        Saturated(c, b);
        Intervals(c.minInterval, n - c.burst);
      }
    }
  }

  lemma Intervals(m: real, k: nat)
    requires k > 0
    ensures (k - 1) as real * m + m == k as real * m
  {
    assert (k - 1) as real == k as real - 1.0;
  }
}
