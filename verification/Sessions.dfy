/**
 The in-memory DM session registry: expiry, minting with bounded redraws, sweeping, and the message
 ordinals that become indentation depths.  Every clock reading and every draw is a parameter.
 */
module Sessions {
  import opened Basics

  type Scope = string

  const MINT_ATTEMPTS := 32

  /** The pseudonyms a mint would draw, one after the other, if it kept drawing. */
  type Draws = d: seq<string> | |d| == MINT_ATTEMPTS witness seq(MINT_ATTEMPTS, _ => "")

  datatype Session = Session(anchor: string, lastSeen: int, createdAt: int, messageCount: nat)

  predicate SameIdentity(s: Session, t: Session) {
    s.anchor == t.anchor && s.createdAt == t.createdAt
  }

  type Registry = map<Scope, Session>

  /** One call's two clock readings and its draws. */
  datatype Moment = Moment(now: int, stamp: int, draws: Draws)

  predicate Expired(s: Session, now: int, ttl: int) {
    now - s.lastSeen >= ttl
  }

  function Peeked(r: Registry, scope: Scope, now: int, ttl: int): Option<Session> {
    if scope !in r || Expired(r[scope], now, ttl) then None else Some(r[scope])
  }

  function Taken(r: Registry): set<string> {
    set scope | scope in r :: r[scope].anchor
  }

  /** The first draw nobody holds, or the last draw of all. */
  function Drawn(taken: set<string>, draws: seq<string>): string
    requires draws != []
  {
    if |draws| == 1 || draws[0] !in taken then draws[0] else Drawn(taken, draws[1..])
  }

  function Minted(r: Registry, m: Moment): Session {
    Session(Drawn(Taken(r), m.draws), m.stamp, m.stamp, 0)
  }

  function Touched(r: Registry, scope: Scope, m: Moment, ttl: int): Session {
    match Peeked(r, scope, m.now, ttl)
    case None => Minted(r, m)
    case Some(live) => live.(lastSeen := m.stamp)
  }

  function Advanced(r: Registry, scope: Scope, m: Moment, ttl: int): Session {
    var current := Touched(r, scope, m, ttl);
    current.(messageCount := current.messageCount + 1)
  }

  function Swept(r: Registry, now: int, ttl: int): Registry {
    map scope | scope in r && !Expired(r[scope], now, ttl) :: r[scope]
  }

  lemma Remaining<K, V>(m: map<K, V>, gone: set<K>)
    requires gone <= m.Keys
    ensures |m - gone| == |m| - |gone|
  {
    assert (m - gone).Keys == m.Keys - gone;
    assert |m - gone| == |(m - gone).Keys| && |m| == |m.Keys|;
  }

  class SessionRegistry {
    const ttl: int
    var sessions: Registry

    constructor (ttl: int)
      ensures this.ttl == ttl && sessions == map[]
    {
      this.ttl, sessions := ttl, map[];
    }

    method Peek(scope: Scope, now: int) returns (live: Option<Session>)
      ensures live == Peeked(sessions, scope, now, ttl)
    {
      var existing := Lookup(sessions, scope);
      if existing.None? || now - existing.value.lastSeen >= ttl {
        return None;
      }
      return existing;
    }

    method Store(scope: Scope, session: Session) returns (stored: Session)
      modifies this
      ensures sessions == old(sessions)[scope := session] && stored == session
    {
      sessions := sessions[scope := session];
      stored := session;
    }

    /** Draws again while somebody holds the pseudonym, thirty-two draws in all. */
    method Mint(scope: Scope, m: Moment) returns (session: Session)
      modifies this
      ensures session == Minted(old(sessions), m) && sessions == old(sessions)[scope := session]
    {
      var taken := set s <- sessions.Values :: s.anchor;
      assert taken == Taken(sessions) by {
        assert forall scope :: scope in sessions ==> sessions[scope] in sessions.Values;
      }
      var pseudonym, k := m.draws[0], 0;
      while k < MINT_ATTEMPTS - 1 && pseudonym in taken
        invariant 0 <= k < MINT_ATTEMPTS && pseudonym == m.draws[k]
        invariant Drawn(taken, m.draws) == Drawn(taken, m.draws[k..])
      {
        k := k + 1;
        pseudonym := m.draws[k];
        assert m.draws[k - 1..][1..] == m.draws[k..];
      }
      session := Store(scope, Session(pseudonym, m.stamp, m.stamp, 0));
    }

    method Touch(scope: Scope, m: Moment) returns (session: Session)
      modifies this
      ensures session == Touched(old(sessions), scope, m, ttl) && sessions == old(sessions)[scope := session]
    {
      var live := Peek(scope, m.now);
      if live.None? {
        session := Mint(scope, m);
      } else {
        session := Store(scope, live.value.(lastSeen := m.stamp));
      }
    }

    method Advance(scope: Scope, m: Moment) returns (session: Session)
      modifies this
      ensures session == Advanced(old(sessions), scope, m, ttl) && sessions == old(sessions)[scope := session]
    {
      var current := Touch(scope, m);
      session := Store(scope, current.(messageCount := current.messageCount + 1));
    }

    method Reset(scope: Scope, m: Moment) returns (session: Session)
      modifies this
      ensures session == Minted(old(sessions), m) && sessions == old(sessions)[scope := session]
    {
      session := Mint(scope, m);
    }

    method Sweep(now: int) returns (removed: nat)
      modifies this
      ensures sessions == Swept(old(sessions), now, ttl) && removed == |old(sessions)| - |sessions|
    {
      var expired := set scope | scope in sessions && now - sessions[scope].lastSeen >= ttl;
      removed := |expired|;
      var left := expired;
      while left != {}
        invariant left <= expired <= old(sessions).Keys
        invariant forall k :: k in sessions <==> k in old(sessions) && (k in expired ==> k in left)
        invariant forall k :: k in sessions ==> sessions[k] == old(sessions)[k]
      {
        var key :| key in left;
        left := left - {key};
        sessions := sessions - {key};
      }
      assert sessions == old(sessions) - expired;
      Remaining(old(sessions), expired);
    }
  }

  // ---------------------------------------------------------------- one call

  datatype Verb = Peek | Touch | Advance | Reset | Sweep

  /** One call on the registry; a sweep concerns no scope in particular. */
  datatype Op = Op(verb: Verb, scope: Scope, moment: Moment)

  /** The call opens a new identity. */
  predicate Mints(r: Registry, op: Op, ttl: int) {
    || op.verb == Reset
    || ((op.verb == Touch || op.verb == Advance) && Peeked(r, op.scope, op.moment.now, ttl).None?)
  }

  function Answer(r: Registry, op: Op, ttl: int): Option<Session> {
    match op.verb
    case Peek => Peeked(r, op.scope, op.moment.now, ttl)
    case Touch => Some(Touched(r, op.scope, op.moment, ttl))
    case Advance => Some(Advanced(r, op.scope, op.moment, ttl))
    case Reset => Some(Minted(r, op.moment))
    case Sweep => None
  }

  function After(r: Registry, op: Op, ttl: int): Registry {
    match op.verb
    case Peek => r
    case Sweep => Swept(r, op.moment.now, ttl)
    case _ => r[op.scope := Answer(r, op, ttl).value]
  }

  /** Counting a message opens an identity at 1, or counts one more under the live one. */
  lemma AdvancedCounts(r: Registry, scope: Scope, m: Moment, ttl: int)
    ensures var s := Advanced(r, scope, m, ttl);
      || s.messageCount == 1
      || (scope in r && SameIdentity(s, r[scope]) && s.messageCount == r[scope].messageCount + 1 > 1)
  {
  }

  /** Any other call leaves a scope's identity and count, drops them, or opens an identity at 0. */
  lemma OthersKeepCount(r: Registry, op: Op, ttl: int, scope: Scope)
    requires op.verb != Advance
    ensures var after := After(r, op, ttl);
      scope in after && after[scope].messageCount > 0 ==>
        scope in r && SameIdentity(r[scope], after[scope]) && r[scope].messageCount == after[scope].messageCount
  {
  }

  // ---------------------------------------------------------------- how long a session lives

  /** The moment the history last stored a session for `scope`. */
  function LastStored(ops: seq<Op>, scope: Scope): Option<int> {
    if ops == [] then None
    else
      var last := ops[|ops| - 1];
      if last.scope == scope && (last.verb == Touch || last.verb == Advance || last.verb == Reset)
      then Some(last.moment.stamp)
      else LastStored(ops[..|ops| - 1], scope)
  }

  lemma {:induction false} FinallyNext(r: Registry, ops: seq<Op>, ttl: int)
    requires ops != []
    ensures Finally(r, ops, ttl) == After(Finally(r, ops[..|ops| - 1], ttl), ops[|ops| - 1], ttl)
    decreases |ops|
  {
    if |ops| > 1 {
      FinallyNext(After(r, ops[0], ttl), ops[1..], ttl);
      assert ops[..|ops| - 1][1..] == ops[1..][..|ops| - 2];
    }
  }

  /**
   A session lives for a TTL from the last call that stored it, over every history: a peek at `now`
   finds one exactly when less than the TTL has passed since then, however often was swept before.
   */
  lemma {:induction false} LivesForATtl(ops: seq<Op>, ttl: int, scope: Scope, now: int)
    requires forall k :: 0 <= k < |ops| && ops[k].verb == Sweep ==> ops[k].moment.now <= now
    ensures var r, stored := Finally(map[], ops, ttl), LastStored(ops, scope);
      && (Peeked(r, scope, now, ttl).Some? <==> stored.Some? && now < stored.value + ttl)
      && (scope in r ==> stored == Some(r[scope].lastSeen))
  {
    if ops != [] {
      FinallyNext(map[], ops, ttl);
      LivesForATtl(ops[..|ops| - 1], ttl, scope, now);
    }
  }

  /** No call ends the session of `scope`: each comes before its TTL has run out, and none resets it. */
  predicate KeepsAlive(r: Registry, ops: seq<Op>, ttl: int, scope: Scope)
    decreases |ops|
  {
    ops != [] ==>
      && scope in r
      && (ops[0].scope == scope || ops[0].verb == Sweep ==>
            ops[0].verb != Reset && ops[0].moment.now < r[scope].lastSeen + ttl)
      && KeepsAlive(After(r, ops[0], ttl), ops[1..], ttl, scope)
  }

  function Counted(ops: seq<Op>, scope: Scope): nat {
    if ops == [] then 0
    else (if ops[0].verb == Advance && ops[0].scope == scope then 1 else 0) + Counted(ops[1..], scope)
  }

  /** A conversation keeps its identity while no gap reaches the TTL, and counts each of its messages once. */
  lemma {:induction false} ConversationKeepsIdentity(r: Registry, ops: seq<Op>, ttl: int, scope: Scope)
    requires scope in r && KeepsAlive(r, ops, ttl, scope)
    ensures var end := Finally(r, ops, ttl);
      && scope in end && SameIdentity(end[scope], r[scope])
      && end[scope].messageCount == r[scope].messageCount + Counted(ops, scope)
    decreases |ops|
  {
    if ops != [] {
      ConversationKeepsIdentity(After(r, ops[0], ttl), ops[1..], ttl, scope);
    }
  }

  /** From the TTL on, the next message opens an identity: drawn anew, created now, at ordinal one. */
  lemma ExpiredStartsAnew(r: Registry, scope: Scope, m: Moment, ttl: int)
    requires scope in r ==> r[scope].lastSeen + ttl <= m.now
    ensures Advanced(r, scope, m, ttl) == Session(Drawn(Taken(r), m.draws), m.stamp, m.stamp, 1)
  {
  }

  // ---------------------------------------------------------------- identities stay apart

  ghost predicate SomeFresh(taken: set<string>, draws: seq<string>) {
    exists k :: 0 <= k < |draws| && draws[k] !in taken
  }

  /** The bounded redraw ends on an unheld pseudonym exactly when it sees one; else on its last draw. */
  lemma {:induction false} DrawnExact(taken: set<string>, draws: seq<string>)
    requires draws != []
    ensures Drawn(taken, draws) in draws
    ensures Drawn(taken, draws) !in taken <==> SomeFresh(taken, draws)
    ensures !SomeFresh(taken, draws) ==> Drawn(taken, draws) == draws[|draws| - 1]
  {
    if |draws| > 1 && draws[0] in taken {
      DrawnExact(taken, draws[1..]);
      if SomeFresh(taken, draws) {
        var k :| 0 <= k < |draws| && draws[k] !in taken;
        assert draws[1..][k - 1] !in taken;
      }
    }
  }

  ghost predicate Distinct(r: Registry) {
    forall a, b :: a in r && b in r && a != b ==> r[a].anchor != r[b].anchor
  }

  /** Nobody else holds `anchor`. */
  ghost predicate HeldByNoOther(r: Registry, scope: Scope, anchor: string) {
    forall other :: other in r && other != scope ==> r[other].anchor != anchor
  }

  /**
   What keeps anchors pairwise distinct, exactly: a call that mints sees a fresh draw, or falls back
   on a last draw that no other scope holds.
   */
  lemma DistinctExact(r: Registry, op: Op, ttl: int)
    requires Distinct(r)
    ensures Distinct(After(r, op, ttl)) <==>
      (Mints(r, op, ttl) ==>
        || SomeFresh(Taken(r), op.moment.draws)
        || HeldByNoOther(r, op.scope, op.moment.draws[MINT_ATTEMPTS - 1]))
  {
    var after := After(r, op, ttl);
    var drawn := Drawn(Taken(r), op.moment.draws);
    if Mints(r, op, ttl) {
      DrawnExact(Taken(r), op.moment.draws);
      assert after[op.scope].anchor == drawn;
      assert Distinct(after) ==> HeldByNoOther(r, op.scope, drawn) by {
        assert forall other :: other in r && other != op.scope ==> other in after && after[other] == r[other];
      }
      assert HeldByNoOther(r, op.scope, drawn) ==> Distinct(after);
    } else if op.verb != Sweep && op.verb != Peek {
      assert after[op.scope].anchor == r[op.scope].anchor;
    }
  }

  /** A reset changes the identity exactly when some draw is fresh or the last one differs from the old. */
  lemma ResetChangesIdentity(r: Registry, scope: Scope, m: Moment)
    requires scope in r
    ensures Minted(r, m).anchor != r[scope].anchor <==>
      SomeFresh(Taken(r), m.draws) || m.draws[MINT_ATTEMPTS - 1] != r[scope].anchor
  {
    DrawnExact(Taken(r), m.draws);
    assert r[scope].anchor in Taken(r);
  }

  /** Every call that mints sees a fresh draw. */
  ghost predicate AllFresh(r: Registry, ops: seq<Op>, ttl: int)
    decreases |ops|
  {
    ops != [] ==>
      && (Mints(r, ops[0], ttl) ==> SomeFresh(Taken(r), ops[0].moment.draws))
      && AllFresh(After(r, ops[0], ttl), ops[1..], ttl)
  }

  function Finally(r: Registry, ops: seq<Op>, ttl: int): Registry
    decreases |ops|
  {
    if ops == [] then r else Finally(After(r, ops[0], ttl), ops[1..], ttl)
  }

  lemma {:induction false} DistinctRun(r: Registry, ops: seq<Op>, ttl: int)
    requires Distinct(r) && AllFresh(r, ops, ttl)
    ensures Distinct(Finally(r, ops, ttl))
    decreases |ops|
  {
    if ops != [] {
      DistinctExact(r, ops[0], ttl);
      DistinctRun(After(r, ops[0], ttl), ops[1..], ttl);
    }
  }

  // ---------------------------------------------------------------- sweeping is invisible

  /** `kept` lacks only sessions of `full` that have expired by `t`. */
  ghost predicate OnlyExpiredGone(full: Registry, kept: Registry, t: int, ttl: int) {
    && kept.Keys <= full.Keys
    && (forall k :: k in kept ==> kept[k] == full[k])
    && (forall k :: k in full && k !in kept ==> Expired(full[k], t, ttl))
  }

  lemma SamePeek(full: Registry, kept: Registry, t: int, ttl: int, scope: Scope, now: int)
    requires OnlyExpiredGone(full, kept, t, ttl) && t <= now
    ensures Peeked(kept, scope, now, ttl) == Peeked(full, scope, now, ttl)
  {
  }

  /** What a sweep leaves answers every present or later peek as before. */
  lemma SweepIsInvisible(r: Registry, t: int, ttl: int, scope: Scope, now: int)
    requires t <= now
    ensures Peeked(Swept(r, t, ttl), scope, now, ttl) == Peeked(r, scope, now, ttl)
    ensures Distinct(r) ==> Distinct(Swept(r, t, ttl))
  {
    SamePeek(r, Swept(r, t, ttl), t, ttl, scope, now);
  }

  function Unswept(ops: seq<Op>): seq<Op> {
    if ops == [] then []
    else (if ops[0].verb == Sweep then [] else [ops[0]]) + Unswept(ops[1..])
  }

  /** What every call but the sweeps answers, in order. */
  function Answers(r: Registry, ops: seq<Op>, ttl: int): seq<Option<Session>>
    decreases |ops|
  {
    if ops == [] then []
    else (if ops[0].verb == Sweep then [] else [Answer(r, ops[0], ttl)]) + Answers(After(r, ops[0], ttl), ops[1..], ttl)
  }

  predicate Forward(ops: seq<Op>, t: int)
    decreases |ops|
  {
    ops != [] ==> t <= ops[0].moment.now <= ops[0].moment.stamp && Forward(ops[1..], ops[0].moment.stamp)
  }

  /** Every minting call's first draw is one nobody holds. */
  ghost predicate FirstDrawsFresh(r: Registry, ops: seq<Op>, ttl: int)
    decreases |ops|
  {
    ops != [] ==>
      && (Mints(r, ops[0], ttl) ==> ops[0].moment.draws[0] !in Taken(r))
      && FirstDrawsFresh(After(r, ops[0], ttl), ops[1..], ttl)
  }

  lemma SameAnswer(full: Registry, kept: Registry, op: Op, t: int, ttl: int)
    requires OnlyExpiredGone(full, kept, t, ttl) && t <= op.moment.now <= op.moment.stamp && op.verb != Sweep
    requires Mints(full, op, ttl) ==> op.moment.draws[0] !in Taken(full)
    ensures Answer(kept, op, ttl) == Answer(full, op, ttl)
    ensures OnlyExpiredGone(After(full, op, ttl), After(kept, op, ttl), op.moment.stamp, ttl)
  {
    SamePeek(full, kept, t, ttl, op.scope, op.moment.now);
    assert Taken(kept) <= Taken(full) by {
      forall a | a in Taken(kept) ensures a in Taken(full) {
        var k :| k in kept && kept[k].anchor == a;
        assert full[k].anchor == a;
      }
    }
  }

  /**
   Sweeps at any points of a history change no answer: peeks, touches, ordinals and minted
   identities come out as if nothing had ever been swept.
   */
  lemma {:induction false} SweepsChangeNoAnswer(full: Registry, kept: Registry, ops: seq<Op>, t: int, ttl: int)
    requires OnlyExpiredGone(full, kept, t, ttl) && Forward(ops, t)
    requires FirstDrawsFresh(full, Unswept(ops), ttl)
    ensures Answers(kept, ops, ttl) == Answers(full, Unswept(ops), ttl)
    decreases |ops|
  {
    if ops != [] {
      var op := ops[0];
      if op.verb == Sweep {
        assert Unswept(ops) == Unswept(ops[1..]);
        assert Answers(kept, ops, ttl) == Answers(After(kept, op, ttl), ops[1..], ttl);
        SweepsChangeNoAnswer(full, After(kept, op, ttl), ops[1..], op.moment.stamp, ttl);
      } else {
        assert Unswept(ops)[0] == op && Unswept(ops)[1..] == Unswept(ops[1..]);
        SameAnswer(full, kept, op, t, ttl);
        SweepsChangeNoAnswer(After(full, op, ttl), After(kept, op, ttl), ops[1..], op.moment.stamp, ttl);
      }
    }
  }

  // ---------------------------------------------------------------- depths

  /** What a history shows: identities opened, and messages counted under one. */
  datatype Entry = Opened(scope: Scope, session: Session) | Line(scope: Scope, session: Session)

  datatype State = State(sessions: Registry, log: seq<Entry>)

  function Logged(r: Registry, op: Op, ttl: int): seq<Entry> {
    (if Mints(r, op, ttl) then [Opened(op.scope, Minted(r, op.moment))] else [])
    + (if op.verb == Advance then [Line(op.scope, Advanced(r, op.scope, op.moment, ttl))] else [])
  }

  function Step(st: State, op: Op, ttl: int): State {
    State(After(st.sessions, op, ttl), st.log + Logged(st.sessions, op, ttl))
  }

  function Run(st: State, ops: seq<Op>, ttl: int): State
    decreases |ops|
  {
    if ops == [] then st else Run(Step(st, ops[0], ttl), ops[1..], ttl)
  }

  /** The identity opened last for `scope`. */
  function Opening(log: seq<Entry>, scope: Scope): Option<Session> {
    if log == [] then None
    else
      var last := log[|log| - 1];
      if last.Opened? && last.scope == scope then Some(last.session) else Opening(log[..|log| - 1], scope)
  }

  /** How many lines `scope` has had since then. */
  function Tally(log: seq<Entry>, scope: Scope): nat {
    if log == [] then 0
    else
      var last := log[|log| - 1];
      if last.scope != scope then Tally(log[..|log| - 1], scope)
      else if last.Opened? then 0
      else Tally(log[..|log| - 1], scope) + 1
  }

  /** `s` carries the identity opened last for `scope`, and has counted `count` messages. */
  predicate Continues(log: seq<Entry>, scope: Scope, s: Session, count: nat) {
    match Opening(log, scope)
    case None => false
    case Some(o) => SameIdentity(s, o) && s.messageCount == count
  }

  /** Entry `i`, when it is a line: the next ordinal of the identity opened last. */
  predicate NextInOrder(log: seq<Entry>, i: nat)
    requires i < |log|
  {
    log[i].Line? ==> Continues(log[..i], log[i].scope, log[i].session, Tally(log[..i], log[i].scope) + 1)
  }

  ghost predicate Inv(st: State) {
    && (forall k :: k in st.sessions ==> Continues(st.log, k, st.sessions[k], Tally(st.log, k)))
    && (forall i :: 0 <= i < |st.log| ==> NextInOrder(st.log, i))
  }

  lemma LogGrows(log: seq<Entry>, e: Entry)
    requires forall i :: 0 <= i < |log| ==> NextInOrder(log, i)
    requires e.Line? ==> Continues(log, e.scope, e.session, Tally(log, e.scope) + 1)
    ensures forall i :: 0 <= i <= |log| ==> NextInOrder(log + [e], i)
    ensures forall k :: k != e.scope ==>
      Opening(log + [e], k) == Opening(log, k) && Tally(log + [e], k) == Tally(log, k)
    ensures if e.Opened? then Opening(log + [e], e.scope) == Some(e.session) && Tally(log + [e], e.scope) == 0
            else Opening(log + [e], e.scope) == Opening(log, e.scope)
                 && Tally(log + [e], e.scope) == Tally(log, e.scope) + 1
  {
    assert (log + [e])[..|log|] == log;
    forall i | 0 <= i <= |log| ensures NextInOrder(log + [e], i) {
      assert (log + [e])[..i] == log[..i];
      assert i < |log| ==> NextInOrder(log, i);
      assert log[..|log|] == log;
    }
  }

  lemma InvStep(st: State, op: Op, ttl: int)
    requires Inv(st)
    ensures Inv(Step(st, op, ttl))
  {
    var mid := st.log;
    if Mints(st.sessions, op, ttl) {
      mid := mid + [Opened(op.scope, Minted(st.sessions, op.moment))];
      LogGrows(st.log, Opened(op.scope, Minted(st.sessions, op.moment)));
    }
    if op.verb == Advance {
      var e := Line(op.scope, Advanced(st.sessions, op.scope, op.moment, ttl));
      LogGrows(mid, e);
      assert Step(st, op, ttl).log == mid + [e];
    } else {
      assert Step(st, op, ttl).log == mid;
    }
  }

  lemma {:induction false} InvRun(st: State, ops: seq<Op>, ttl: int)
    requires Inv(st)
    ensures Inv(Run(st, ops, ttl))
    decreases |ops|
  {
    if ops != [] {
      InvStep(st, ops[0], ttl);
      InvRun(Step(st, ops[0], ttl), ops[1..], ttl);
    }
  }

  /** The lines of one identity get the ordinals 1, 2, 3, … in the order they are counted, whatever else happens. */
  lemma DepthsCount(ops: seq<Op>, ttl: int, i: nat)
    requires i < |Run(State(map[], []), ops, ttl).log|
    ensures NextInOrder(Run(State(map[], []), ops, ttl).log, i)
  {
    InvRun(State(map[], []), ops, ttl);
  }
}
