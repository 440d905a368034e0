/**
 One platform's relay backlog: any number of submitters, one drain worker.

 `Queue` is what the object holds; a `State` adds the suspended tasks and the history of the run.
 An `Action` is one segment between two awaits, `Run` folds any sequence of them.
 */
module RelayQueue {
  type Message = string
  type Scope = string

  datatype Config = Config(degradedDepth: nat, ceiling: nat)

  /** The fields of the object. `unfinished` is asyncio.Queue's own counter behind `join`. */
  datatype Queue = Queue(pending: seq<Message>, unfinished: int, audience: set<Scope>, degraded: bool)

  function Shed(c: Config, q: Queue): Queue {
    var keep := c.ceiling / 2;
    if |q.pending| <= keep then q
    else q.(pending := q.pending[|q.pending| - keep..], unfinished := q.unfinished - (|q.pending| - keep))
  }

  function Put(c: Config, q: Queue, m: Message): Queue {
    q.(pending := q.pending + [m],
       unfinished := q.unfinished + 1,
       degraded := q.degraded || |q.pending| + 1 >= c.degradedDepth)
  }

  function Take(q: Queue): Queue
    requires q.pending != []
  {
    q.(pending := q.pending[1..])
  }

  /** `task_done`, then the recovery check. */
  function Finish(q: Queue): Queue {
    q.(unfinished := q.unfinished - 1, degraded := q.degraded && q.pending != [])
  }

  // ---------------------------------------------------------------- the object

  class RelayQueue {
    const config: Config
    var pending: seq<Message>
    var unfinished: nat
    var audience: set<Scope>
    var degraded: bool

    ghost function View(): Queue
      reads this
    {
      Queue(pending, unfinished, audience, degraded)
    }

    constructor (config: Config)
      ensures this.config == config && View() == Queue([], 0, {}, false)
    {
      this.config := config;
      pending, unfinished, audience, degraded := [], 0, {}, false;
    }

    /** `submit` up to its overflow check. */
    method Arrive(listeners: set<Scope>) returns (full: bool)
      modifies this
      ensures View() == old(View()).(audience := old(audience) + listeners)
      ensures full <==> |pending| >= config.ceiling
    {
      audience := audience + listeners;
      full := |pending| >= config.ceiling;
    }

    /** The shedding loop of `_overflow`; the types make each `task_done` prove it has a task. */
    method Overflow() returns (dropped: nat)
      requires |pending| <= unfinished
      modifies this
      ensures View() == Shed(config, old(View()))
      ensures dropped == |old(pending)| - |pending|
    {
      dropped := 0;
      ghost var was := pending;
      while |pending| > config.ceiling / 2
        invariant dropped <= |was| && pending == was[dropped..]
        invariant dropped > 0 ==> |pending| >= config.ceiling / 2
        invariant unfinished == old(unfinished) - dropped && |pending| <= unfinished
        invariant audience == old(audience) && degraded == old(degraded)
      {
        pending := pending[1..];
        unfinished := unfinished - 1;
        dropped := dropped + 1;
      }
    }

    /** `submit` from the put to its announcement, if one is due. */
    method Enqueue(message: Message) returns (announce: bool)
      modifies this
      ensures View() == Put(config, old(View()), message)
      ensures announce <==> !old(degraded) && degraded
    {
      pending, unfinished := pending + [message], unfinished + 1;
      announce := !degraded && |pending| >= config.degradedDepth;
      if announce {
        degraded := true;
      }
    }

    method Dequeue() returns (message: Message)
      requires pending != []
      modifies this
      ensures message == old(pending)[0] && View() == Take(old(View()))
    {
      message := pending[0];
      pending := pending[1..];
    }

    /** The worker's `finally` block up to its announcement. */
    method Complete() returns (announce: bool)
      requires |pending| < unfinished
      modifies this
      ensures View() == Finish(old(View()))
      ensures announce <==> old(degraded) && !degraded
    {
      unfinished := unfinished - 1;
      announce := degraded && pending == [];
      if announce {
        degraded := false;
      }
    }
  }

  // ---------------------------------------------------------------- the interleaved system

  datatype Worker = Idle | Sending(message: Message) | Announcing(alive: bool) | Stopped

  datatype Fate = Handed | Dropped

  /** A change of the `degraded` flag, with how many messages had been put and removed by then. */
  datatype Transition = Degraded(puts: nat, removed: nat) | Recovered(puts: nat, removed: nat)

  datatype State = State(
    q: Queue,
    worker: Worker,
    overflowing: map<nat, Message>, // submits suspended in the overflow notice: not put yet
    noticing: set<nat>,             // submits suspended in the degraded notice: already put
    nextId: nat,
    puts: seq<Message>,             // every message put, in order
    fates: seq<Fate>,               // what became of each message removed, in removal order
    handed: seq<Message>,           // every message given to `send`, in order
    transitions: seq<Transition>,
    overflows: seq<nat>)            // how many messages had been put at each overflow

  datatype Action =
    | Submit(message: Message, listeners: set<Scope>)
    | Resume(id: nat)
    | Get
    | SendDone(ok: bool) // `send` returned, or raised out of the worker
    | WorkerResume

  function Init(): State {
    State(Queue([], 0, {}, false), Idle, map[], {}, 0, [], [], [], [], [])
  }

  function Repeat<T>(x: T, n: nat): (r: seq<T>)
    ensures |r| == n && forall k :: 0 <= k < n ==> r[k] == x
  {
    seq(n, _ => x)
  }

  /** A notice is awaited only when there is somebody to tell. */
  predicate Awaits(q: Queue) {
    q.audience != {}
  }

  function PutStep(c: Config, st: State, id: nat, m: Message): State {
    var q := Put(c, st.q, m);
    var st1 := st.(q := q, puts := st.puts + [m]);
    if !st.q.degraded && q.degraded
    then st1.(noticing := if Awaits(q) then st.noticing + {id} else st.noticing,
              transitions := st.transitions + [Degraded(|st.puts| + 1, |st.fates|)])
    else st1
  }

  function SubmitStep(c: Config, st: State, m: Message, listeners: set<Scope>): State {
    var st1 := st.(q := st.q.(audience := st.q.audience + listeners), nextId := st.nextId + 1);
    if |st.q.pending| >= c.ceiling then
      var q := Shed(c, st1.q);
      var shed := st1.(q := q,
                       fates := st.fates + Repeat(Dropped, |st.q.pending| - |q.pending|),
                       overflows := st.overflows + [|st.puts|]);
      if Awaits(q) then shed.(overflowing := st.overflowing[st.nextId := m]) else PutStep(c, shed, st.nextId, m)
    else PutStep(c, st1, st.nextId, m)
  }

  function SendDoneStep(st: State, ok: bool): State {
    var q := Finish(st.q);
    if st.q.degraded && !q.degraded
    then st.(q := q, worker := if Awaits(q) then Announcing(ok) else if ok then Idle else Stopped,
             transitions := st.transitions + [Recovered(|st.puts|, |st.fates|)])
    else st.(q := q, worker := if ok then Idle else Stopped)
  }

  /** An action that is not enabled leaves the state as it is. */
  function Apply(c: Config, st: State, a: Action): State {
    match a
    case Submit(m, listeners) => SubmitStep(c, st, m, listeners)
    case Resume(id) =>
      if id in st.overflowing then
        PutStep(c, st.(overflowing := st.overflowing - {id}), id, st.overflowing[id])
      else st.(noticing := st.noticing - {id})
    case Get =>
      if st.worker.Idle? && st.q.pending != []
      then st.(q := Take(st.q), worker := Sending(st.q.pending[0]),
               fates := st.fates + [Handed], handed := st.handed + [st.q.pending[0]])
      else st
    case SendDone(ok) => if st.worker.Sending? then SendDoneStep(st, ok) else st
    case WorkerResume =>
      if st.worker.Announcing? then st.(worker := if st.worker.alive then Idle else Stopped) else st
  }

  function Run(c: Config, st: State, actions: seq<Action>): State
    decreases |actions|
  {
    if actions == [] then st else Run(c, Apply(c, st, actions[0]), actions[1..])
  }

  // ---------------------------------------------------------------- conservation and order

  /** The messages whose fate was to be handed to `send`, in put order. */
  function Survivors(puts: seq<Message>, fates: seq<Fate>): seq<Message>
    requires |fates| <= |puts|
  {
    if fates == [] then []
    else Survivors(puts, fates[..|fates| - 1])
         + (if fates[|fates| - 1] == Handed then [puts[|fates| - 1]] else [])
  }

  lemma {:induction false} SurvivorsFrame(puts: seq<Message>, more: seq<Message>, fates: seq<Fate>)
    requires |fates| <= |puts|
    ensures Survivors(puts + more, fates) == Survivors(puts, fates)
  {
    if fates != [] {
      SurvivorsFrame(puts, more, fates[..|fates| - 1]);
    }
  }

  lemma {:induction false} DroppedAddNothing(puts: seq<Message>, fates: seq<Fate>, n: nat)
    requires |fates| + n <= |puts|
    ensures Survivors(puts, fates + Repeat(Dropped, n)) == Survivors(puts, fates)
  {
    if n == 0 {
      assert fates + Repeat(Dropped, 0) == fates;
    } else {
      var longer := fates + Repeat(Dropped, n);
      assert longer[..|longer| - 1] == fates + Repeat(Dropped, n - 1);
      DroppedAddNothing(puts, fates, n - 1);
    }
  }

  /**
   The removed messages are the first `|fates|` put, the pending ones are the rest; what was handed
   to `send` is what survived, in put order; and asyncio's counter is pending plus in flight.
   */
  ghost predicate Conserved(st: State) {
    && |st.fates| <= |st.puts|
    && st.q.pending == st.puts[|st.fates|..]
    && st.handed == Survivors(st.puts, st.fates)
    && (st.worker.Sending? ==> st.handed != [] && st.handed[|st.handed| - 1] == st.worker.message)
    && st.q.unfinished == |st.q.pending| + (if st.worker.Sending? then 1 else 0)
  }

  lemma PutConserves(c: Config, st: State, id: nat, m: Message)
    requires Conserved(st)
    ensures Conserved(PutStep(c, st, id, m))
  {
    SurvivorsFrame(st.puts, [m], st.fates);
  }

  /** Shedding removes the first of what is pending, one unfinished task each. */
  lemma ShedRemovesFirst(c: Config, q: Queue, puts: seq<Message>, removed: nat)
    requires removed <= |puts| && q.pending == puts[removed..]
    ensures var dropped := |q.pending| - |Shed(c, q).pending|;
      && 0 <= dropped && removed + dropped <= |puts|
      && Shed(c, q).pending == puts[removed + dropped..] && Shed(c, q).unfinished == q.unfinished - dropped
  {
  }

  /** The state an overflow leaves before its notice. */
  function ShedStep(c: Config, st: State, listeners: set<Scope>): State {
    var q := Shed(c, st.q.(audience := st.q.audience + listeners));
    st.(q := q, nextId := st.nextId + 1,
        fates := st.fates + Repeat(Dropped, |st.q.pending| - |q.pending|),
        overflows := st.overflows + [|st.puts|])
  }

  lemma OverflowIsShed(c: Config, st: State, m: Message, listeners: set<Scope>)
    requires |st.q.pending| >= c.ceiling
    ensures var shed := ShedStep(c, st, listeners);
      SubmitStep(c, st, m, listeners)
      == if Awaits(shed.q) then shed.(overflowing := st.overflowing[st.nextId := m]) else PutStep(c, shed, st.nextId, m)
  {
  }

  lemma ShedConserves(c: Config, st: State, listeners: set<Scope>)
    requires Conserved(st)
    ensures Conserved(ShedStep(c, st, listeners))
  {
    var q := st.q.(audience := st.q.audience + listeners);
    ShedRemovesFirst(c, q, st.puts, |st.fates|);
    DroppedAddNothing(st.puts, st.fates, |q.pending| - |Shed(c, q).pending|);
  }

  lemma OverflowConserves(c: Config, st: State, m: Message, listeners: set<Scope>)
    requires Conserved(st) && |st.q.pending| >= c.ceiling
    ensures Conserved(SubmitStep(c, st, m, listeners))
  {
    OverflowIsShed(c, st, m, listeners);
    var shed := ShedStep(c, st, listeners);
    ShedConserves(c, st, listeners);
    if !Awaits(shed.q) {
      PutConserves(c, shed, st.nextId, m);
    }
  }

  lemma GetConserves(c: Config, st: State)
    requires Conserved(st) && st.worker.Idle? && st.q.pending != []
    ensures Conserved(Apply(c, st, Get))
  {
    var st' := Apply(c, st, Get);
    assert st'.fates[..|st'.fates| - 1] == st.fates;
    assert st.q.pending[0] == st.puts[|st.fates|];
  }

  lemma SendDoneConserves(st: State, ok: bool)
    requires Conserved(st) && st.worker.Sending?
    ensures Conserved(SendDoneStep(st, ok))
  {
  }

  lemma ConservedStep(c: Config, st: State, a: Action)
    requires Conserved(st)
    ensures Conserved(Apply(c, st, a))
  {
    match a
    case Submit(m, listeners) =>
      if |st.q.pending| >= c.ceiling {
        OverflowConserves(c, st, m, listeners);
      } else {
        PutConserves(c, st.(q := st.q.(audience := st.q.audience + listeners), nextId := st.nextId + 1),
                     st.nextId, m);
      }
    case Resume(id) =>
      if id in st.overflowing {
        PutConserves(c, st.(overflowing := st.overflowing - {id}), id, st.overflowing[id]);
      }
    case Get =>
      if st.worker.Idle? && st.q.pending != [] {
        GetConserves(c, st);
      }
    case SendDone(ok) =>
      if st.worker.Sending? {
        SendDoneConserves(st, ok);
      }
    case WorkerResume =>
  }

  /** No message is lost or duplicated, sends keep put order, and `task_done` never underflows. */
  lemma {:induction false} ConservedRun(c: Config, st: State, actions: seq<Action>)
    requires Conserved(st)
    ensures Conserved(Run(c, st, actions))
    decreases |actions|
  {
    if actions != [] {
      ConservedStep(c, st, actions[0]);
      ConservedRun(c, Apply(c, st, actions[0]), actions[1..]);
    }
  }

  /** The places, in put order, of the messages handed to `send`. */
  function Places(fates: seq<Fate>): seq<nat> {
    if fates == [] then []
    else Places(fates[..|fates| - 1])
         + (if fates[|fates| - 1] == Handed then [|fates| - 1] else [])
  }

  /** Handed messages keep their put order: the k-th comes from a strictly later place than the one before. */
  lemma {:induction false} SurvivorsInOrder(puts: seq<Message>, fates: seq<Fate>)
    requires |fates| <= |puts|
    ensures var places := Places(fates);
      && |places| == |Survivors(puts, fates)|
      && (forall k :: 0 <= k < |places| ==>
            places[k] < |fates| && fates[places[k]] == Handed && Survivors(puts, fates)[k] == puts[places[k]])
      && (forall j, k :: 0 <= j < k < |places| ==> places[j] < places[k])
  {
    if fates != [] {
      SurvivorsInOrder(puts, fates[..|fates| - 1]);
    }
  }

  /** ... and no handed message is missing. */
  lemma {:induction false} EveryHandedSurvives(fates: seq<Fate>, i: nat)
    requires i < |fates| && fates[i] == Handed
    ensures i in Places(fates)
  {
    if i < |fates| - 1 {
      EveryHandedSurvives(fates[..|fates| - 1], i);
    } else {
      assert Places(fates)[|Places(fates)| - 1] == i;
    }
  }

  // ---------------------------------------------------------------- honest, amortised notices

  /** The k-th transition is the right one, was true when made, and closes a long enough span. */
  ghost predicate Fits(c: Config, transitions: seq<Transition>, k: nat)
    requires k < |transitions|
  {
    var t := transitions[k];
    if k % 2 == 0 then t.Degraded? && t.puts >= t.removed + c.degradedDepth
    else && t.Recovered? && t.puts == t.removed
         && transitions[k - 1].removed + c.degradedDepth <= t.removed
  }

  ghost predicate Alternate(c: Config, transitions: seq<Transition>) {
    forall k :: 0 <= k < |transitions| ==> Fits(c, transitions, k)
  }

  lemma AlternateAppend(c: Config, transitions: seq<Transition>, t: Transition)
    requires Alternate(c, transitions) && Fits(c, transitions + [t], |transitions|)
    ensures Alternate(c, transitions + [t])
  {
    forall k | 0 <= k < |transitions|
      ensures Fits(c, transitions + [t], k)
    {
      assert Fits(c, transitions, k);
    }
  }

  ghost predicate Spaced(c: Config, overflows: seq<nat>) {
    forall k :: 0 < k < |overflows| ==>
      overflows[k - 1] + (c.ceiling - c.ceiling / 2) <= overflows[k]
  }

  /**
   Transitions alternate and were true; overflows are spaced; and a degraded queue has work left:
   a message pending or in flight, or a submit that will put its message when its notice is out.
   */
  ghost predicate Honest(c: Config, st: State) {
    && (st.q.degraded ==> st.q.pending != [] || st.worker.Sending? || st.overflowing != map[])
    && Noted(c, st)
  }

  ghost predicate Noted(c: Config, st: State) {
    && (st.q.degraded <==> |st.transitions| % 2 == 1)
    && Alternate(c, st.transitions)
    && (st.q.degraded ==> st.transitions[|st.transitions| - 1].puts <= |st.puts|)
    && Spaced(c, st.overflows)
    && (st.overflows != [] ==>
          var last := st.overflows[|st.overflows| - 1];
          last <= |st.puts| && |st.q.pending| <= c.ceiling / 2 + (|st.puts| - last))
  }

  lemma PutHonest(c: Config, st: State, id: nat, m: Message)
    requires Conserved(st) && Noted(c, st)
    ensures Honest(c, PutStep(c, st, id, m))
  {
    if !st.q.degraded && Put(c, st.q, m).degraded {
      AlternateAppend(c, st.transitions, Degraded(|st.puts| + 1, |st.fates|));
    }
  }

  lemma SendDoneHonest(c: Config, st: State, ok: bool)
    requires Conserved(st) && Honest(c, st) && st.worker.Sending?
    ensures Honest(c, SendDoneStep(st, ok))
  {
    if st.q.degraded && st.q.pending == [] {
      assert Fits(c, st.transitions, |st.transitions| - 1);
      AlternateAppend(c, st.transitions, Recovered(|st.puts|, |st.fates|));
    }
  }

  lemma ShedNoted(c: Config, st: State, listeners: set<Scope>)
    requires Conserved(st) && Noted(c, st) && |st.q.pending| >= c.ceiling
    ensures Noted(c, ShedStep(c, st, listeners))
  {
  }

  lemma OverflowHonest(c: Config, st: State, m: Message, listeners: set<Scope>)
    requires Conserved(st) && Honest(c, st) && |st.q.pending| >= c.ceiling
    ensures Honest(c, SubmitStep(c, st, m, listeners))
  {
    OverflowIsShed(c, st, m, listeners);
    ShedConserves(c, st, listeners);
    ShedNoted(c, st, listeners);
    var shed := ShedStep(c, st, listeners);
    if Awaits(shed.q) {
      assert st.nextId in SubmitStep(c, st, m, listeners).overflowing;
    } else {
      PutHonest(c, shed, st.nextId, m);
    }
  }

  lemma HonestStep(c: Config, st: State, a: Action)
    requires Conserved(st) && Honest(c, st)
    ensures Honest(c, Apply(c, st, a))
  {
    match a
    case Submit(m, listeners) =>
      if |st.q.pending| >= c.ceiling {
        OverflowHonest(c, st, m, listeners);
      } else {
        PutHonest(c, st.(q := st.q.(audience := st.q.audience + listeners), nextId := st.nextId + 1),
                  st.nextId, m);
      }
    case Resume(id) =>
      if id in st.overflowing {
        PutHonest(c, st.(overflowing := st.overflowing - {id}), id, st.overflowing[id]);
      }
    case Get =>
    case SendDone(ok) =>
      if st.worker.Sending? {
        SendDoneHonest(c, st, ok);
      }
    case WorkerResume =>
  }

  /**
   At every ceiling and degraded depth: degraded and recovered transitions strictly alternate and
   are true when made; a span between them contains `degradedDepth` removals or more; two overflows
   are half a ceiling of puts apart; and a degraded queue never lacks what it will recover from.
   */
  lemma {:induction false} HonestRun(c: Config, st: State, actions: seq<Action>)
    requires Conserved(st) && Honest(c, st)
    ensures Honest(c, Run(c, st, actions))
    decreases |actions|
  {
    if actions != [] {
      ConservedStep(c, st, actions[0]);
      HonestStep(c, st, actions[0]);
      HonestRun(c, Apply(c, st, actions[0]), actions[1..]);
    }
  }

  lemma EveryRun(c: Config, actions: seq<Action>)
    ensures Conserved(Run(c, Init(), actions)) && Honest(c, Run(c, Init(), actions))
  {
    ConservedRun(c, Init(), actions);
    HonestRun(c, Init(), actions);
  }

  /** No backlog goes unannounced: a queue that is not degraded holds fewer messages than the degraded depth. */
  ghost predicate Announced(c: Config, st: State) {
    !st.q.degraded ==> st.q.pending == [] || |st.q.pending| < c.degradedDepth
  }

  lemma PutAnnounced(c: Config, st: State, id: nat, m: Message)
    ensures Announced(c, PutStep(c, st, id, m))
  {
  }

  lemma {:induction false} AnnouncedRun(c: Config, st: State, actions: seq<Action>)
    requires Announced(c, st)
    ensures Announced(c, Run(c, st, actions))
    decreases |actions|
  {
    if actions != [] {
      AnnouncedStep(c, st, actions[0]);
      AnnouncedRun(c, Apply(c, st, actions[0]), actions[1..]);
    }
  }

  lemma AnnouncedStep(c: Config, st: State, a: Action)
    requires Announced(c, st)
    ensures Announced(c, Apply(c, st, a))
  {
    if a.Submit? && |st.q.pending| >= c.ceiling {
      OverflowIsShed(c, st, a.message, a.listeners);
    }
  }

  /** A submit is suspended, with its message put or yet to be, exactly when it makes a notice somebody hears. */
  lemma SubmitSuspends(c: Config, st: State, m: Message, listeners: set<Scope>)
    requires st.nextId !in st.overflowing && st.nextId !in st.noticing
    ensures var after, heard := Apply(c, st, Submit(m, listeners)), st.q.audience + listeners != {};
      var full := |st.q.pending| >= c.ceiling;
      && (st.nextId in after.overflowing <==> full && heard)
      && (st.nextId in after.noticing <==> heard && !st.q.degraded && after.q.degraded)
      && (after.puts == if full && heard then st.puts else st.puts + [m])
  {
    if |st.q.pending| >= c.ceiling {
      OverflowIsShed(c, st, m, listeners);
    }
  }

  // ---------------------------------------------------------------- degraded means backed up

  /** A degraded queue has a message pending or in flight, whoever is suspended. */
  ghost predicate Backed(st: State) {
    st.q.degraded ==> st.q.pending != [] || st.worker.Sending?
  }

  lemma BackedStep(c: Config, st: State, a: Action)
    requires c.ceiling >= 2 && Backed(st)
    ensures Backed(Apply(c, st, a))
  {
    if a.Submit? && |st.q.pending| >= c.ceiling {
      OverflowIsShed(c, st, a.message, a.listeners);
    }
  }

  lemma {:induction false} BackedRun(c: Config, st: State, actions: seq<Action>)
    requires c.ceiling >= 2 && Backed(st)
    ensures Backed(Run(c, st, actions))
    decreases |actions|
  {
    if actions != [] {
      BackedStep(c, st, actions[0]);
      BackedRun(c, Apply(c, st, actions[0]), actions[1..]);
    }
  }

  lemma {:induction false} RunSplit(c: Config, st: State, a: seq<Action>, b: seq<Action>)
    ensures Run(c, st, a + b) == Run(c, Run(c, st, a), b)
    decreases |a|
  {
    if a == [] {
      assert a + b == b;
    } else {
      assert (a + b)[1..] == a[1..] + b;
      RunSplit(c, Apply(c, st, a[0]), a[1..], b);
    }
  }

  lemma RunOne(c: Config, st: State, a: Action)
    ensures Run(c, st, [a]) == Apply(c, st, a)
  {
    assert [a][1..] == [];
    assert Run(c, st, [a]) == Run(c, Apply(c, st, a), []);
  }

  /** Submits known by number were all seen. */
  ghost predicate Numbered(st: State) {
    forall id :: id in st.overflowing ==> id < st.nextId
  }

  lemma AtMostOneKeyMore<K, V>(m: map<K, V>, k: K, v: V)
    ensures |m[k := v]| <= |m| + 1
  {
    if k in m {
      assert m[k := v].Keys == m.Keys;
      assert |m[k := v]| == |m[k := v].Keys| && |m| == |m.Keys|;
    } else {
      OneKeyMore(m, k, v);
    }
  }

  lemma OneKeyMore<K, V>(m: map<K, V>, k: K, v: V)
    requires k !in m
    ensures |m[k := v]| == |m| + 1
  {
    assert m[k := v].Keys == m.Keys + {k};
    assert |m[k := v]| == |m[k := v].Keys| && |m| == |m.Keys|;
  }

  lemma OneKeyLess<K, V>(m: map<K, V>, k: K)
    requires k in m
    ensures |m - {k}| == |m| - 1
  {
    assert (m - {k}).Keys == m.Keys - {k};
    assert |m - {k}| == |(m - {k}).Keys| && |m| == |m.Keys|;
  }

  lemma SubmitOverflows(c: Config, st: State, submit: Action)
    requires Numbered(st) && |st.q.pending| >= c.ceiling && submit.Submit? && submit.listeners != {}
    ensures var st' := Apply(c, st, submit);
      && |st'.overflowing| == |st.overflowing| + 1 && st'.worker == st.worker && st'.noticing == st.noticing
      && |st'.q.pending| == (if |st.q.pending| <= c.ceiling / 2 then |st.q.pending| else c.ceiling / 2)
      && st'.q.degraded == st.q.degraded && Numbered(st')
  {
    OverflowIsShed(c, st, submit.message, submit.listeners);
    var listener :| listener in submit.listeners;
    assert listener in ShedStep(c, st, submit.listeners).q.audience;
    OneKeyMore(st.overflowing, st.nextId, submit.message);
  }

  lemma SubmitPuts(c: Config, st: State, submit: Action)
    requires Numbered(st) && |st.q.pending| < c.ceiling && submit.Submit?
    ensures var st' := Apply(c, st, submit);
      && st'.overflowing == st.overflowing && st'.worker == st.worker && |st'.q.pending| == |st.q.pending| + 1
      && st'.q.degraded == (st.q.degraded || |st.q.pending| + 1 >= c.degradedDepth) && Numbered(st')
      && st.noticing <= st'.noticing <= st.noticing + {st.nextId}
  {
  }

  /** `k` submits suspended in overflow notices before the queue ever degraded. */
  lemma Suspends(c: Config, submit: Action, k: nat) returns (actions: seq<Action>)
    requires submit.Submit? && submit.listeners != {}
    requires c.ceiling == 0 || (c.ceiling == 1 && (k == 0 || c.degradedDepth > 1))
    ensures var st := Run(c, Init(), actions);
      st.q.pending == [] && st.worker == Idle && !st.q.degraded && |st.overflowing| == k && Numbered(st)
  {
    if k == 0 {
      actions := [];
    } else {
      var before := Suspends(c, submit, k - 1);
      var st := Run(c, Init(), before);
      if c.ceiling == 0 {
        SubmitOverflows(c, st, submit);
        RunOne(c, st, submit);
        RunSplit(c, Init(), before, [submit]);
        actions := before + [submit];
      } else {
        SubmitPuts(c, st, submit);
        var st1 := Apply(c, st, submit);
        SubmitOverflows(c, st1, submit);
        RunOne(c, st, submit);
        RunOne(c, st1, submit);
        RunSplit(c, Init(), before, [submit]);
        RunSplit(c, Init(), before + [submit], [submit]);
        actions := before + [submit] + [submit];
      }
    }
  }

  lemma ResumePuts(c: Config, st: State, id: nat)
    requires id in st.overflowing
    ensures var st' := Apply(c, st, Resume(id));
      && |st'.overflowing| == |st.overflowing| - 1 && st'.worker == st.worker
      && |st'.q.pending| == |st.q.pending| + 1
      && st'.q.degraded == (st.q.degraded || |st.q.pending| + 1 >= c.degradedDepth)
  {
    OneKeyLess(st.overflowing, id);
  }

  lemma {:induction false} ResumesAll(c: Config, st: State) returns (actions: seq<Action>)
    ensures var st' := Run(c, st, actions);
      && |st'.q.pending| == |st.q.pending| + |st.overflowing| && st'.worker == st.worker
      && st'.overflowing == map[]
      && st'.q.degraded == (st.q.degraded || (st.overflowing != map[] && |st'.q.pending| >= c.degradedDepth))
    decreases |st.overflowing|
  {
    if st.overflowing == map[] {
      actions := [];
    } else {
      var id :| id in st.overflowing;
      ResumePuts(c, st, id);
      var rest := ResumesAll(c, Apply(c, st, Resume(id)));
      actions := [Resume(id)] + rest;
      assert actions[1..] == rest;
    }
  }

  /** One more submit over a full enough backlog empties a queue whose ceiling is below two, and waits. */
  lemma ShedsToNothing(c: Config, past: seq<Action>, submit: Action)
    requires c.ceiling <= 1 && |Run(c, Init(), past).q.pending| >= 1
    requires Numbered(Run(c, Init(), past)) && submit.Submit? && submit.listeners != {}
    ensures var st, st' := Run(c, Init(), past), Run(c, Init(), past + [submit]);
      && st'.q.pending == [] && st'.q.degraded == st.q.degraded && st'.worker == st.worker
      && st'.overflowing != map[]
  {
    var st := Run(c, Init(), past);
    RunSplit(c, Init(), past, [submit]);
    RunOne(c, st, submit);
    SubmitOverflows(c, st, submit);
  }

  /** Degraded, with nothing pending or in flight, and submits still suspended. */
  ghost predicate Emptied(st: State) {
    st.q.degraded && st.q.pending == [] && st.worker == Idle && st.overflowing != map[]
  }

  /**
   With a ceiling below two, at any degraded depth: a run, all of whose notices have somebody to
   tell, that leaves the queue degraded with nothing pending or in flight.  Only submits suspended
   in their overflow notices still have a message to put.
   */
  lemma LowCeilingEmptiesDegraded(c: Config, submit: Action) returns (actions: seq<Action>)
    requires c.ceiling <= 1 && submit.Submit? && submit.listeners != {}
    ensures Emptied(Run(c, Init(), actions))
  {
    var wanted := if c.degradedDepth == 0 then 1 else c.degradedDepth;
    var suspended := Suspends(c, submit, wanted - c.ceiling);
    var st := Run(c, Init(), suspended);
    if c.ceiling == 1 {
      SubmitPuts(c, st, submit);
      RunOne(c, st, submit);
      RunSplit(c, Init(), suspended, [submit]);
      suspended := suspended + [submit];
      st := Run(c, Init(), suspended);
    }
    var resumed := ResumesAll(c, st);
    RunSplit(c, Init(), suspended, resumed);
    ShedsToNothing(c, suspended + resumed, submit);
    actions := suspended + resumed + [submit];
  }

  /** In every run a degraded queue has a message pending or in flight exactly when the ceiling is at least two. */
  lemma BackedExactly(c: Config)
    ensures (forall actions :: Backed(Run(c, Init(), actions))) <==> c.ceiling >= 2
  {
    if c.ceiling >= 2 {
      forall actions ensures Backed(Run(c, Init(), actions)) {
        BackedRun(c, Init(), actions);
      }
    } else {
      var actions := LowCeilingEmptiesDegraded(c, Submit("", {""}));
      assert !Backed(Run(c, Init(), actions));
    }
  }

  // ---------------------------------------------------------------- the worker goes on

  /** The worker is between messages, sending one, or announcing after a send that returned. */
  predicate Alive(worker: Worker) {
    worker == Idle || worker.Sending? || worker == Announcing(true)
  }

  /** A send raised: the worker is gone, or only its last notice is left of it. */
  predicate Dead(worker: Worker) {
    worker == Stopped || worker == Announcing(false)
  }

  /** The worker's own steps, every send returning. */
  predicate WorkerStep(a: Action) {
    a == Get || a == SendDone(true) || a == WorkerResume
  }

  /** Everything put was handed out, in order, and nothing is left unfinished or under way. */
  ghost predicate Drained(st: State, end: State) {
    && end.handed == st.handed + st.q.pending && end.puts == st.puts
    && end.q.pending == [] && end.q.unfinished == 0 && end.worker == Idle
    && (end.q.degraded <==> st.q.degraded && st.q.pending == [] && !st.worker.Sending?)
    && end.overflowing == st.overflowing && end.noticing == st.noticing
  }

  /** A send returns and its notice, if one is due, is out: the worker is free again. */
  lemma SendReturns(c: Config, st: State) returns (actions: seq<Action>)
    requires Conserved(st) && st.worker.Sending?
    ensures |actions| <= 2 && forall a :: a in actions ==> WorkerStep(a)
    ensures var end := Run(c, st, actions);
      && Conserved(end) && end.worker == Idle && end.handed == st.handed && end.puts == st.puts
      && end.q.pending == st.q.pending && end.q.degraded == (st.q.degraded && st.q.pending != [])
      && end.overflowing == st.overflowing && end.noticing == st.noticing
  {
    var sent := Apply(c, st, SendDone(true));
    SendDoneConserves(st, true);
    if sent.worker == Idle {
      actions := [SendDone(true)];
      RunOne(c, st, SendDone(true));
    } else {
      actions := [SendDone(true), WorkerResume];
      assert actions[1..] == [WorkerResume];
      RunOne(c, sent, WorkerResume);
    }
  }

  /** One message taken and sent. */
  lemma SendsOne(c: Config, st: State) returns (actions: seq<Action>)
    requires Conserved(st) && st.worker == Idle && st.q.pending != []
    ensures |actions| <= 3 && forall a :: a in actions ==> WorkerStep(a)
    ensures var end := Run(c, st, actions);
      && Conserved(end) && end.worker == Idle && end.handed == st.handed + [st.q.pending[0]] && end.puts == st.puts
      && end.q.pending == st.q.pending[1..] && end.q.degraded == (st.q.degraded && |st.q.pending| > 1)
      && end.overflowing == st.overflowing && end.noticing == st.noticing
  {
    GetConserves(c, st);
    var taken := Apply(c, st, Get);
    var rest := SendReturns(c, taken);
    actions := [Get] + rest;
    assert actions[1..] == rest;
  }

  lemma {:induction false} DrainsFromIdle(c: Config, st: State) returns (actions: seq<Action>)
    requires Conserved(st) && st.worker == Idle
    ensures |actions| <= 3 * |st.q.pending| && forall a :: a in actions ==> WorkerStep(a)
    ensures Drained(st, Run(c, st, actions))
    decreases |st.q.pending|
  {
    if st.q.pending == [] {
      actions := [];
      assert st.handed + [] == st.handed;
    } else {
      var one := SendsOne(c, st);
      var after := Run(c, st, one);
      var rest := DrainsFromIdle(c, after);
      RunSplit(c, st, one, rest);
      assert st.q.pending == [st.q.pending[0]] + st.q.pending[1..];
      assert st.handed + [st.q.pending[0]] + st.q.pending[1..] == st.handed + st.q.pending;
      actions := one + rest;
    }
  }

  /**
   The queue drains: from any state a run reaches whose worker has not stopped, a bounded number of the
   worker's own steps, each send returning, hands out exactly what is pending, in order, and ends
   idle, with nothing unfinished, and recovered if there was anything to recover by.
   */
  lemma Drains(c: Config, st: State) returns (actions: seq<Action>)
    requires Conserved(st) && Alive(st.worker)
    ensures |actions| <= 3 * |st.q.pending| + 2 && forall a :: a in actions ==> WorkerStep(a)
    ensures Drained(st, Run(c, st, actions))
  {
    var first: seq<Action> := [];
    if st.worker.Sending? {
      first := SendReturns(c, st);
    } else if st.worker == Announcing(true) {
      first := [WorkerResume];
      RunOne(c, st, WorkerResume);
    }
    var free := Run(c, st, first);
    var rest := DrainsFromIdle(c, free);
    RunSplit(c, st, first, rest);
    actions := first + rest;
  }

  /** A send that raises ends the worker, whatever its last notice does. */
  lemma RaisedIsDead(c: Config, st: State)
    requires st.worker.Sending?
    ensures Dead(Apply(c, st, SendDone(false)).worker) && Alive(Apply(c, st, SendDone(true)).worker)
  {
  }

  /** From then on nothing is handed out. */
  lemma {:induction false} DeadHandsNothing(c: Config, st: State, actions: seq<Action>)
    requires Dead(st.worker)
    ensures Dead(Run(c, st, actions).worker) && Run(c, st, actions).handed == st.handed
    decreases |actions|
  {
    if actions != [] {
      DeadHandsNothing(c, Apply(c, st, actions[0]), actions[1..]);
    }
  }

  /** In every run the worker is alive exactly until a send raises. */
  lemma AliveUntilRaised(c: Config, st: State, a: Action)
    requires Alive(st.worker)
    ensures Alive(Apply(c, st, a).worker) <==> !(a == SendDone(false) && st.worker.Sending?)
  {
  }

  /** Catching up is announced by the worker itself: it hands out nothing until a notice somebody hears is out. */
  lemma RecoveryIsAwaited(c: Config, st: State, ok: bool)
    requires st.worker.Sending?
    ensures var after := Apply(c, st, SendDone(ok));
      && (after.worker.Announcing? <==> st.q.degraded && st.q.pending == [] && st.q.audience != {})
      && (after.worker.Announcing? ==> Apply(c, after, Get) == after)
      && Apply(c, after, WorkerResume).worker == if ok then Idle else Stopped
  {
  }

  // ---------------------------------------------------------------- depth

  /** At most `k` submits overlap: each starts with fewer than `k` others under way. */
  ghost predicate Overlap(c: Config, st: State, actions: seq<Action>, k: nat)
    decreases |actions|
  {
    actions != [] ==>
      && (actions[0].Submit? ==> |st.overflowing| + |st.noticing| < k)
      && Overlap(c, Apply(c, st, actions[0]), actions[1..], k)
  }

  /** A queue holds at least the message just put, even with a ceiling of zero. */
  function Room(c: Config): nat {
    if c.ceiling == 0 then 1 else c.ceiling
  }

  ghost predicate Shallow(c: Config, st: State, k: nat) {
    |st.q.pending| + |st.overflowing| <= Room(c) + k - 1
  }

  lemma ShedHalves(c: Config, st: State, listeners: set<Scope>)
    requires |st.q.pending| >= c.ceiling
    ensures |ShedStep(c, st, listeners).q.pending| <= c.ceiling / 2 < Room(c)
    ensures ShedStep(c, st, listeners).overflowing == st.overflowing
  {
  }

  lemma PutSize(c: Config, st: State, id: nat, m: Message)
    ensures |PutStep(c, st, id, m).q.pending| == |st.q.pending| + 1
    ensures PutStep(c, st, id, m).overflowing == st.overflowing
  {
  }

  lemma OverflowShallow(c: Config, st: State, m: Message, listeners: set<Scope>, k: nat)
    requires |st.q.pending| >= c.ceiling && |st.overflowing| < k
    ensures Shallow(c, SubmitStep(c, st, m, listeners), k)
  {
    OverflowIsShed(c, st, m, listeners);
    ShedHalves(c, st, listeners);
    PutSize(c, ShedStep(c, st, listeners), st.nextId, m);
    AtMostOneKeyMore(st.overflowing, st.nextId, m);
  }

  lemma ResumeShallow(c: Config, st: State, id: nat, k: nat)
    requires Shallow(c, st, k) && id in st.overflowing
    ensures Shallow(c, Apply(c, st, Resume(id)), k)
  {
    OneKeyLess(st.overflowing, id);
  }

  lemma ShallowStep(c: Config, st: State, a: Action, k: nat)
    requires Shallow(c, st, k)
    requires a.Submit? ==> |st.overflowing| + |st.noticing| < k
    ensures Shallow(c, Apply(c, st, a), k)
  {
    if a.Resume? && a.id in st.overflowing {
      ResumeShallow(c, st, a.id, k);
    } else if a.Submit? && |st.q.pending| >= c.ceiling {
      OverflowShallow(c, st, a.message, a.listeners, k);
    }
  }

  /**
   The OOM guard: with at most `k` overlapping submits, of which s are suspended in an overflow
   notice, the backlog never exceeds `ceiling + k - 1 - s` (with a ceiling of zero counting as one).
   */
  lemma {:induction false} DepthBound(c: Config, st: State, actions: seq<Action>, k: nat)
    requires k >= 1 && Shallow(c, st, k) && Overlap(c, st, actions, k)
    ensures Shallow(c, Run(c, st, actions), k)
    decreases |actions|
  {
    if actions != [] {
      ShallowStep(c, st, actions[0], k);
      DepthBound(c, Apply(c, st, actions[0]), actions[1..], k);
    }
  }

  lemma {:induction false} OverlapConcat(c: Config, st: State, a: seq<Action>, b: seq<Action>, k: nat)
    requires Overlap(c, st, a, k) && Overlap(c, Run(c, st, a), b, k)
    ensures Overlap(c, st, a + b, k)
    decreases |a|
  {
    if a == [] {
      assert a + b == b;
    } else {
      assert (a + b)[1..] == a[1..] + b;
      OverlapConcat(c, Apply(c, st, a[0]), a[1..], b, k);
    }
  }

  lemma {:induction false} OverlapWidens(c: Config, st: State, actions: seq<Action>, k: nat)
    requires Overlap(c, st, actions, k)
    ensures Overlap(c, st, actions, k + 1)
    decreases |actions|
  {
    if actions != [] {
      OverlapWidens(c, Apply(c, st, actions[0]), actions[1..], k);
    }
  }

  /** Nothing but overflow notices is suspended. */
  ghost predicate Calm(st: State, suspended: nat) {
    Numbered(st) && st.noticing == {} && |st.overflowing| == suspended
  }

  /** One put, and the end of its notice if it makes one. */
  lemma FillsOne(c: Config, st: State, submit: Action, k: nat) returns (actions: seq<Action>)
    requires Calm(st, k) && |st.q.pending| < c.ceiling && submit.Submit?
    ensures Overlap(c, st, actions, k + 1)
    ensures Calm(Run(c, st, actions), k) && |Run(c, st, actions).q.pending| == |st.q.pending| + 1
  {
    var resume := Resume(st.nextId);
    SubmitPuts(c, st, submit);
    var st1 := Apply(c, st, submit);
    var st2 := Apply(c, st1, resume);
    assert st.nextId !in st.overflowing && st2.noticing == {};
    actions := [submit, resume];
    assert actions[1..] == [resume] && [resume][1..] == [];
    assert Run(c, st1, [resume]) == Run(c, st2, []);
    assert Overlap(c, st2, [], k + 1) && Overlap(c, st1, [resume], k + 1);
  }

  /** Filled up to the ceiling, one submit after the other. */
  lemma {:induction false} Fills(c: Config, st: State, submit: Action, k: nat) returns (actions: seq<Action>)
    requires Calm(st, k) && |st.q.pending| <= c.ceiling && submit.Submit?
    ensures Overlap(c, st, actions, k + 1)
    ensures Calm(Run(c, st, actions), k) && |Run(c, st, actions).q.pending| == c.ceiling
    decreases c.ceiling - |st.q.pending|
  {
    if |st.q.pending| == c.ceiling {
      actions := [];
    } else {
      var one := FillsOne(c, st, submit, k);
      var rest := Fills(c, Run(c, st, one), submit, k);
      Joins(c, st, one, rest, k + 1);
      actions := one + rest;
    }
  }

  lemma Joins(c: Config, st: State, a: seq<Action>, b: seq<Action>, k: nat)
    requires Overlap(c, st, a, k) && Overlap(c, Run(c, st, a), b, k)
    ensures Overlap(c, st, a + b, k) && Run(c, st, a + b) == Run(c, Run(c, st, a), b)
  {
    OverlapConcat(c, st, a, b, k);
    RunSplit(c, st, a, b);
  }

  /** From a full queue: one more submit suspended, and the queue filled again. */
  lemma OneMoreSuspended(c: Config, st: State, submit: Action, k: nat) returns (actions: seq<Action>)
    requires Calm(st, k) && |st.q.pending| == c.ceiling && submit.Submit? && submit.listeners != {}
    ensures Overlap(c, st, actions, k + 2)
    ensures Calm(Run(c, st, actions), k + 1) && |Run(c, st, actions).q.pending| == c.ceiling
  {
    SubmitOverflows(c, st, submit);
    var after := Apply(c, st, submit);
    var rest := Fills(c, after, submit, k + 1);
    actions := [submit] + rest;
    assert actions[1..] == rest;
  }

  /** These actions overlap no more than they must and leave a full queue and `suspended` overflow notices. */
  ghost predicate FullAfter(c: Config, st: State, actions: seq<Action>, suspended: nat) {
    && Overlap(c, st, actions, suspended + 1)
    && Calm(Run(c, st, actions), suspended) && |Run(c, st, actions).q.pending| == c.ceiling
  }

  lemma FullAgain(c: Config, st: State, before: seq<Action>, submit: Action, suspended: nat)
      returns (actions: seq<Action>)
    requires FullAfter(c, st, before, suspended) && submit.Submit? && submit.listeners != {}
    ensures FullAfter(c, st, actions, suspended + 1)
  {
    OverlapWidens(c, st, before, suspended + 1);
    var rest := OneMoreSuspended(c, Run(c, st, before), submit, suspended);
    Joins(c, st, before, rest, suspended + 2);
    actions := before + rest;
  }

  lemma {:induction false} FullWith(c: Config, st: State, submit: Action, suspended: nat) returns (actions: seq<Action>)
    requires Calm(st, 0) && |st.q.pending| <= c.ceiling && submit.Submit? && submit.listeners != {}
    ensures FullAfter(c, st, actions, suspended)
    decreases suspended
  {
    if suspended == 0 {
      actions := Fills(c, st, submit, 0);
    } else {
      var before := FullWith(c, st, submit, suspended - 1);
      actions := FullAgain(c, st, before, submit, suspended - 1);
    }
  }

  /** The bound is attained, for every ceiling and every number of overlapping submits. */
  lemma DepthAttained(c: Config, submit: Action, k: nat) returns (actions: seq<Action>)
    requires k >= 1 && submit.Submit? && submit.listeners != {}
    ensures Overlap(c, Init(), actions, k)
    ensures var st := Run(c, Init(), actions); |st.q.pending| + |st.overflowing| == Room(c) + k - 1
  {
    actions := FullWith(c, Init(), submit, k - 1);
    if c.ceiling == 0 {
      var st := Run(c, Init(), actions);
      SubmitOverflows(c, st, submit);
      RunOne(c, st, submit);
      assert [submit][1..] == [] && Overlap(c, Apply(c, st, submit), [], k);
      Joins(c, Init(), actions, [submit], k);
      actions := actions + [submit];
    }
  }
}
