/**
 The sliding-window rate limiter: per-key deques pruned in place and evicted once per window,
 against the plain count over everything ever allowed.
 */
module Limiter {
  import opened Basics

  datatype Key = Key(scope: string, id: string)

  /** An allowed event. */
  datatype Event = Event(key: Key, at: int)

  // ---------------------------------------------------------------- the plain specification

  /** When `key` was allowed, oldest first. */
  function History(log: seq<Event>, key: Key): seq<int> {
    if log == [] then []
    else
      var last := log[|log| - 1];
      History(log[..|log| - 1], key) + (if last.key == key then [last.at] else [])
  }

  /** How many entries of `h` lie in `(lo, hi]`. */
  function CountIn(h: seq<int>, lo: int, hi: int): nat {
    if h == [] then 0
    else CountIn(h[..|h| - 1], lo, hi) + (if lo < h[|h| - 1] <= hi then 1 else 0)
  }

  /** The naive limiter: fewer than `limit` allowed events of this key in the window ending now. */
  predicate Allows(log: seq<Event>, key: Key, now: int, limit: int, window: int) {
    CountIn(History(log, key), now - window, now) < limit
  }

  ghost predicate Sorted(h: seq<int>) {
    forall i, j :: 0 <= i < j < |h| ==> h[i] <= h[j]
  }

  ghost predicate Ordered(log: seq<Event>, upTo: int) {
    && (forall i, j :: 0 <= i < j < |log| ==> log[i].at <= log[j].at)
    && (forall i :: 0 <= i < |log| ==> log[i].at <= upTo)
  }

  /** Every event of the log was allowed by the naive limiter when it happened. */
  ghost predicate Admitted(log: seq<Event>, limit: int, window: int) {
    forall k :: 0 <= k < |log| ==> AllowedAt(log, k, limit, window)
  }

  ghost predicate AllowedAt(log: seq<Event>, k: nat, limit: int, window: int)
    requires k < |log|
  {
    Allows(log[..k], log[k].key, log[k].at, limit, window)
  }

  lemma {:induction false} HistorySorted(log: seq<Event>, key: Key, upTo: int)
    requires Ordered(log, upTo)
    ensures Sorted(History(log, key))
    ensures forall i :: 0 <= i < |History(log, key)| ==> History(log, key)[i] <= upTo
  {
    if log != [] {
      HistorySorted(log[..|log| - 1], key, log[|log| - 1].at);
    }
  }

  lemma {:induction false} CountMonotone(h: seq<int>, lo: int, lo': int, hi: int, hi': int)
    requires lo' <= lo && forall i :: 0 <= i < |h| ==> h[i] <= hi'
    ensures CountIn(h, lo, hi) <= CountIn(h, lo', hi')
  {
    if h != [] {
      CountMonotone(h[..|h| - 1], lo, lo', hi, hi');
    }
  }

  lemma AdmittedFront(log: seq<Event>, limit: int, window: int)
    requires log != [] && Admitted(log, limit, window)
    ensures Admitted(log[..|log| - 1], limit, window)
  {
    var front := log[..|log| - 1];
    forall k | 0 <= k < |front|
      ensures AllowedAt(front, k, limit, window)
    {
      assert front[..k] == log[..k];
      assert AllowedAt(log, k, limit, window);
    }
  }

  /** The last event of a log found fewer than `limit` others in any window that holds it. */
  lemma LastWasAllowed(log: seq<Event>, limit: int, window: int, end: int)
    requires log != [] && Ordered(log, log[|log| - 1].at) && Admitted(log, limit, window)
    requires log[|log| - 1].at <= end
    ensures CountIn(History(log[..|log| - 1], log[|log| - 1].key), end - window, end) < limit
  {
    var front, last := log[..|log| - 1], log[|log| - 1];
    assert AllowedAt(log, |log| - 1, limit, window);
    HistorySorted(front, last.key, last.at);
    CountMonotone(History(front, last.key), end - window, last.at - window, end, last.at);
  }

  lemma CountLast(log: seq<Event>, key: Key, lo: int, hi: int)
    requires log != []
    ensures var front, last := log[..|log| - 1], log[|log| - 1];
      CountIn(History(log, key), lo, hi)
      == CountIn(History(front, key), lo, hi) + (if last.key == key && lo < last.at <= hi then 1 else 0)
  {
    var front, last := log[..|log| - 1], log[|log| - 1];
    if last.key == key {
      assert History(log, key)[..|History(front, key)|] == History(front, key);
    } else {
      assert History(log, key) == History(front, key);
    }
  }

  /** The promise: no window of this length, wherever it ends, ever holds more than `limit` allowed events of a key. */
  lemma {:induction false} NeverOverLimit(log: seq<Event>, key: Key, limit: int, window: int, end: int)
    requires limit >= 1 && Admitted(log, limit, window)
    requires forall i, j :: 0 <= i < j < |log| ==> log[i].at <= log[j].at
    ensures CountIn(History(log, key), end - window, end) <= limit
    decreases |log|
  {
    if log != [] {
      var front, last := log[..|log| - 1], log[|log| - 1];
      AdmittedFront(log, limit, window);
      NeverOverLimit(front, key, limit, window, end);
      CountLast(log, key, end - window, end);
      if last.key == key && last.at <= end {
        LastWasAllowed(log, limit, window, end);
      }
    }
  }

  // ---------------------------------------------------------------- pruning

  /** `while history and history[0] <= cutoff: popleft()`. */
  function Pruned(h: seq<int>, cutoff: int): seq<int> {
    if h != [] && h[0] <= cutoff then Pruned(h[1..], cutoff) else h
  }

  lemma {:induction false} PrunedTwice(h: seq<int>, c1: int, c2: int)
    requires c1 <= c2
    ensures Pruned(Pruned(h, c1), c2) == Pruned(h, c2)
  {
    if h != [] && h[0] <= c1 {
      PrunedTwice(h[1..], c1, c2);
    }
  }

  lemma {:induction false} PrunedAppend(h: seq<int>, x: int, cutoff: int)
    ensures Pruned(h + [x], cutoff) == if Pruned(h, cutoff) == [] then Pruned([x], cutoff) else Pruned(h, cutoff) + [x]
  {
    if h == [] {
      assert h + [x] == [x];
    } else if h[0] <= cutoff {
      assert (h + [x])[1..] == h[1..] + [x];
      PrunedAppend(h[1..], x, cutoff);
    }
  }

  /** Pruning drops a head of entries at or before the cutoff, and stops at the first one after it. */
  lemma {:induction false} PrunedIsTail(h: seq<int>, cutoff: int) returns (n: nat)
    ensures n <= |h| && Pruned(h, cutoff) == h[n..]
    ensures forall i :: 0 <= i < n ==> h[i] <= cutoff
    ensures n < |h| ==> h[n] > cutoff
  {
    if h != [] && h[0] <= cutoff {
      var m := PrunedIsTail(h[1..], cutoff);
      n := m + 1;
      assert h[1..][m..] == h[n..];
      assert forall i :: 1 <= i < n ==> h[i] == h[1..][i - 1];
    } else {
      n := 0;
    }
  }

  lemma TailSorted(h: seq<int>, n: nat)
    requires Sorted(h) && n <= |h|
    ensures Sorted(h[n..]) && forall i :: n <= i < |h| ==> h[i] <= h[|h| - 1]
    ensures forall x :: x in h[n..] ==> x in h
  {
  }

  lemma PrunedSorted(h: seq<int>, cutoff: int)
    requires Sorted(h)
    ensures Sorted(Pruned(h, cutoff))
    ensures Pruned(h, cutoff) != [] ==>
      Pruned(h, cutoff)[|Pruned(h, cutoff)| - 1] == h[|h| - 1] > cutoff
    ensures h != [] && h[|h| - 1] > cutoff ==> Pruned(h, cutoff) != []
    ensures forall x :: x in Pruned(h, cutoff) ==> x in h
  {
    var n := PrunedIsTail(h, cutoff);
    TailSorted(h, n);
  }

  lemma {:induction false} CountSplit(x: int, h: seq<int>, lo: int, hi: int)
    ensures CountIn([x] + h, lo, hi) == (if lo < x <= hi then 1 else 0) + CountIn(h, lo, hi)
  {
    if h == [] {
      assert [x] + h == [x] && [x][..0] == [];
    } else {
      var all := [x] + h;
      assert all[..|all| - 1] == [x] + h[..|h| - 1];
      CountSplit(x, h[..|h| - 1], lo, hi);
    }
  }

  /** What pruning leaves is exactly what the naive count counts. */
  lemma {:induction false} PrunedCounts(h: seq<int>, cutoff: int, now: int)
    requires Sorted(h) && forall i :: 0 <= i < |h| ==> h[i] <= now
    ensures CountIn(h, cutoff, now) == |Pruned(h, cutoff)|
  {
    if h != [] {
      CountSplit(h[0], h[1..], cutoff, now);
      assert h == [h[0]] + h[1..];
      PrunedCounts(h[1..], cutoff, now);
      if h[0] > cutoff {
        PrunedKeeps(h[1..], cutoff);
      }
    }
  }

  lemma PrunedKeeps(h: seq<int>, cutoff: int)
    requires forall i :: 0 <= i < |h| ==> h[i] > cutoff
    ensures Pruned(h, cutoff) == h
  {
  }

  // ---------------------------------------------------------------- deques against history

  function DequeOf(events: map<Key, seq<int>>, key: Key): seq<int> {
    if key in events then events[key] else []
  }

  /** A stored deque is sorted, never empty, and holds something the last eviction would have kept. */
  ghost predicate DequeOk(h: seq<int>, seen: int, nextEvict: int, window: int) {
    && h != [] && Sorted(h)
    && (forall i :: 0 <= i < |h| ==> h[i] <= seen)
    && h[|h| - 1] >= nextEvict - 2 * window
  }

  ghost predicate Agrees(events: map<Key, seq<int>>, log: seq<Event>, key: Key, cutoff: int) {
    Pruned(DequeOf(events, key), cutoff) == Pruned(History(log, key), cutoff)
  }

  ghost predicate AllAgree(events: map<Key, seq<int>>, log: seq<Event>, cutoff: int) {
    forall key :: Agrees(events, log, key, cutoff)
  }

  ghost predicate AllOk(events: map<Key, seq<int>>, seen: int, nextEvict: int, window: int) {
    forall key :: key in events ==> DequeOk(events[key], seen, nextEvict, window)
  }

  ghost predicate Consistent(events: map<Key, seq<int>>, log: seq<Event>, seen: int, nextEvict: int, window: int) {
    AllOk(events, seen, nextEvict, window) && AllAgree(events, log, seen - window)
  }

  /** What agreed after pruning at one cutoff agrees at every later one. */
  lemma TimePasses(events: map<Key, seq<int>>, log: seq<Event>, c1: int, c2: int)
    requires AllAgree(events, log, c1) && c1 <= c2
    ensures AllAgree(events, log, c2)
  {
    forall key
      ensures Agrees(events, log, key, c2)
    {
      assert Agrees(events, log, key, c1);
      PrunedTwice(DequeOf(events, key), c1, c2);
      PrunedTwice(History(log, key), c1, c2);
    }
  }

  function Kept(events: map<Key, seq<int>>, cutoff: int): map<Key, seq<int>>
    requires forall key :: key in events ==> events[key] != []
  {
    map key | key in events && events[key][|events[key]| - 1] > cutoff :: events[key]
  }

  /** An eviction keeps exactly the keys with an event that still counts, and their deques whole. */
  lemma KeptExactly(events: map<Key, seq<int>>, cutoff: int, key: Key)
    requires forall k :: k in events ==> events[k] != [] && Sorted(events[k])
    ensures key in Kept(events, cutoff) <==>
      key in events && exists i :: 0 <= i < |events[key]| && events[key][i] > cutoff
    ensures key in Kept(events, cutoff) ==> Kept(events, cutoff)[key] == events[key]
  {
    if key in events {
      var last := |events[key]| - 1;
      assert forall i :: 0 <= i < last ==> events[key][i] <= events[key][last];
    }
  }

  /** Dropping the deques whose last event expired changes nothing the limiter can answer. */
  lemma EvictionAgrees(events: map<Key, seq<int>>, log: seq<Event>, cutoff: int)
    requires forall key :: key in events ==> events[key] != [] && Sorted(events[key])
    requires AllAgree(events, log, cutoff)
    ensures AllAgree(Kept(events, cutoff), log, cutoff)
  {
    var kept := Kept(events, cutoff);
    forall key
      ensures Agrees(kept, log, key, cutoff)
    {
      assert Agrees(events, log, key, cutoff);
      if key in events && key !in kept {
        PrunedSorted(events[key], cutoff);
        assert DequeOf(kept, key) == [];
      } else {
        assert DequeOf(kept, key) == DequeOf(events, key);
      }
    }
  }

  /** The history of one key after one more event. */
  lemma HistoryAppend(log: seq<Event>, e: Event, key: Key)
    ensures History(log + [e], key) == History(log, key) + (if e.key == key then [e.at] else [])
  {
    assert (log + [e])[..|log|] == log;
  }

  /** A deque replaced by its pruned form agrees as before. */
  lemma PrunedAgrees(events: map<Key, seq<int>>, log: seq<Event>, key: Key, cutoff: int)
    requires AllAgree(events, log, cutoff)
    ensures AllAgree(events[key := Pruned(DequeOf(events, key), cutoff)], log, cutoff)
  {
    var events' := events[key := Pruned(DequeOf(events, key), cutoff)];
    forall other
      ensures Agrees(events', log, other, cutoff)
    {
      assert Agrees(events, log, other, cutoff);
      if other == key {
        PrunedTwice(DequeOf(events, key), cutoff, cutoff);
      } else {
        assert DequeOf(events', other) == DequeOf(events, other);
      }
    }
  }

  /** Recording an event in the deque and in the history keeps them agreed. */
  lemma RecordedAgrees(events: map<Key, seq<int>>, log: seq<Event>, key: Key, now: int, cutoff: int)
    requires AllAgree(events, log, cutoff)
    ensures AllAgree(events[key := DequeOf(events, key) + [now]], log + [Event(key, now)], cutoff)
  {
    var events' := events[key := DequeOf(events, key) + [now]];
    forall other
      ensures Agrees(events', log + [Event(key, now)], other, cutoff)
    {
      assert Agrees(events, log, other, cutoff);
      HistoryAppend(log, Event(key, now), other);
      if other == key {
        PrunedAppend(DequeOf(events, key), now, cutoff);
        PrunedAppend(History(log, key), now, cutoff);
      } else {
        assert DequeOf(events', other) == DequeOf(events, other);
        assert History(log, other) + [] == History(log, other);
      }
    }
  }

  /** The eviction at `now` keeps the deques in step with the history. */
  lemma EvictedConsistent(events: map<Key, seq<int>>, log: seq<Event>, now: int, next: int, window: int)
    requires Consistent(events, log, now, next, window)
    ensures forall key :: key in events ==> events[key] != []
    ensures Consistent(Kept(events, now - window), log, now, now + window, window)
  {
    EvictionAgrees(events, log, now - window);
  }

  lemma LaterConsistent(events: map<Key, seq<int>>, log: seq<Event>, seen: int, now: int, next: int, window: int)
    requires Consistent(events, log, seen, next, window) && seen <= now
    ensures Consistent(events, log, now, next, window)
  {
    TimePasses(events, log, seen - window, now - window);
  }

  lemma LaterLog(log: seq<Event>, seen: int, now: int, limit: int, window: int)
    requires LogOk(log, seen, limit, window) && seen <= now
    ensures LogOk(log, now, limit, window)
  {
  }

  /** A stored deque stays in order when pruned to something. */
  lemma PrunedDequeOk(d: seq<int>, now: int, next: int, window: int)
    requires d != [] && DequeOk(d, now, next, window) && Pruned(d, now - window) != []
    ensures DequeOk(Pruned(d, now - window), now, next, window)
  {
    var n := PrunedIsTail(d, now - window);
    TailSorted(d, n);
    assert d[n..][|d[n..]| - 1] == d[|d| - 1];
  }

  /** ... and when pruned and given an event. */
  lemma GrownDequeOk(d: seq<int>, now: int, next: int, window: int)
    requires window >= 0 && next - window <= now && (d != [] ==> DequeOk(d, now, next, window))
    ensures DequeOk(Pruned(d, now - window) + [now], now, next, window)
  {
    var n := PrunedIsTail(d, now - window);
    TailSorted(d, n);
    SortedAppend(d[n..], now);
  }

  lemma SortedAppend(h: seq<int>, now: int)
    requires Sorted(h) && forall i :: 0 <= i < |h| ==> h[i] <= now
    ensures Sorted(h + [now]) && forall i :: 0 <= i < |h + [now]| ==> (h + [now])[i] <= now
  {
  }

  /** The log as the naive limiter would have written it. */
  ghost predicate LogOk(log: seq<Event>, seen: int, limit: int, window: int) {
    Ordered(log, seen) && Admitted(log, limit, window)
  }

  lemma LogAppend(log: seq<Event>, key: Key, now: int, limit: int, window: int)
    requires LogOk(log, now, limit, window) && Allows(log, key, now, limit, window)
    ensures LogOk(log + [Event(key, now)], now, limit, window)
  {
    var log' := log + [Event(key, now)];
    forall k | 0 <= k < |log'|
      ensures AllowedAt(log', k, limit, window)
    {
      assert log'[..k] == log[..k];
      if k == |log| {
        assert log[..k] == log;
      } else {
        assert AllowedAt(log, k, limit, window);
      }
    }
  }

  /** The pruned deque holds exactly what the naive limiter counts. */
  lemma DequeCounts(events: map<Key, seq<int>>, log: seq<Event>, key: Key, now: int, next: int, limit: int, window: int)
    requires LogOk(log, now, limit, window) && Consistent(events, log, now, next, window)
    ensures |Pruned(DequeOf(events, key), now - window)| == CountIn(History(log, key), now - window, now)
  {
    HistorySorted(log, key, now);
    PrunedCounts(History(log, key), now - window, now);
    assert Agrees(events, log, key, now - window);
  }

  /** One deque replaced by one that is in order. */
  lemma ReplacedConsistent(events: map<Key, seq<int>>, log: seq<Event>, key: Key, h: seq<int>, now: int, next: int,
                           window: int)
    requires AllOk(events, now, next, window) && DequeOk(h, now, next, window)
    requires AllAgree(events[key := h], log, now - window)
    ensures Consistent(events[key := h], log, now, next, window)
  {
  }

  /** `allow` refuses: the deque stays as pruned. */
  lemma RefusedKeeps(events: map<Key, seq<int>>, log: seq<Event>, key: Key, now: int, next: int, window: int)
    requires window >= 0 && next - window <= now && Consistent(events, log, now, next, window)
    requires Pruned(DequeOf(events, key), now - window) != []
    ensures Consistent(events[key := Pruned(DequeOf(events, key), now - window)], log, now, next, window)
  {
    PrunedAgrees(events, log, key, now - window);
    PrunedDequeOk(DequeOf(events, key), now, next, window);
    ReplacedConsistent(events, log, key, Pruned(DequeOf(events, key), now - window), now, next, window);
  }

  /** The pruned deque with the event agrees with the log with the event. */
  lemma AllowedAgrees(events: map<Key, seq<int>>, log: seq<Event>, key: Key, now: int, window: int)
    requires AllAgree(events, log, now - window)
    ensures AllAgree(events[key := Pruned(DequeOf(events, key), now - window) + [now]], log + [Event(key, now)],
                     now - window)
  {
    var h := Pruned(DequeOf(events, key), now - window);
    PrunedAgrees(events, log, key, now - window);
    RecordedAgrees(events[key := h], log, key, now, now - window);
    assert events[key := h][key := h + [now]] == events[key := h + [now]];
  }

  /** `allow` allows: the deque as pruned, with the event. */
  lemma AllowedKeeps(events: map<Key, seq<int>>, log: seq<Event>, key: Key, now: int, next: int, window: int)
    requires window >= 0 && next - window <= now && Consistent(events, log, now, next, window)
    ensures Consistent(events[key := Pruned(DequeOf(events, key), now - window) + [now]], log + [Event(key, now)],
                       now, next, window)
  {
    AllowedAgrees(events, log, key, now, window);
    GrownDequeOk(DequeOf(events, key), now, next, window);
    ReplacedConsistent(events, log + [Event(key, now)], key, Pruned(DequeOf(events, key), now - window) + [now],
                       now, next, window);
  }

  /** `allow` after its count: the deque as pruned, with the event when it was allowed. */
  lemma AllowKeeps(events: map<Key, seq<int>>, log: seq<Event>, key: Key, ok: bool, now: int, next: int,
                   limit: int, window: int)
    requires limit >= 1 && window >= 0 && next - window <= now
    requires LogOk(log, now, limit, window) && Consistent(events, log, now, next, window)
    requires ok <==> Allows(log, key, now, limit, window)
    ensures var h := Pruned(DequeOf(events, key), now - window);
      && Consistent(events[key := if ok then h + [now] else h], if ok then log + [Event(key, now)] else log, now, next,
                    window)
      && LogOk(if ok then log + [Event(key, now)] else log, now, limit, window)
  {
    if ok {
      AllowedKeeps(events, log, key, now, next, window);
      LogAppend(log, key, now, limit, window);
    } else {
      DequeCounts(events, log, key, now, next, limit, window);
      RefusedKeeps(events, log, key, now, next, window);
    }
  }

  /** What the limiter keeps between calls: its deques answer for its whole log. */
  ghost predicate StateOk(
      events: map<Key, seq<int>>, nextEvict: Option<int>, log: seq<Event>, seen: int, limit: int, window: int)
  {
    && limit >= 1 && window >= 0
    && LogOk(log, seen, limit, window)
    && match nextEvict
       case None => events == map[] && log == []
       case Some(next) => next - window <= seen && Consistent(events, log, seen, next, window)
  }

  /** Time passes, and the eviction runs if it is due. */
  lemma EvictOk(events: map<Key, seq<int>>, nextEvict: Option<int>, log: seq<Event>, seen: int, now: int,
                limit: int, window: int, events': map<Key, seq<int>>, nextEvict': Option<int>)
    requires StateOk(events, nextEvict, log, seen, limit, window) && seen <= now
    requires if nextEvict.Some? && now < nextEvict.value then events' == events && nextEvict' == nextEvict
             else events' == Kept(events, now - window) && nextEvict' == Some(now + window)
    ensures StateOk(events', nextEvict', log, now, limit, window)
  {
    LaterLog(log, seen, now, limit, window);
    if nextEvict.Some? {
      EvictKeeps(events, log, seen, now, nextEvict.value, limit, window);
    }
  }

  /** No stored deque is empty, and before the first call there is none. */
  lemma DequesStored(events: map<Key, seq<int>>, nextEvict: Option<int>, log: seq<Event>, seen: int, cutoff: int,
                     limit: int, window: int)
    requires StateOk(events, nextEvict, log, seen, limit, window)
    ensures forall key :: key in events ==> events[key] != []
    ensures nextEvict.None? ==> Kept(events, cutoff) == map[]
  {
    if nextEvict.Some? {
      forall key | key in events ensures events[key] != [] {
        assert DequeOk(events[key], seen, nextEvict.value, window);
      }
    }
  }

  /** The count decides as the naive limiter would, and what is kept stays right. */
  lemma AllowOk(events: map<Key, seq<int>>, next: int, log: seq<Event>, key: Key, now: int, limit: int, window: int,
                ok: bool, events': map<Key, seq<int>>, log': seq<Event>)
    requires StateOk(events, Some(next), log, now, limit, window)
    requires var h := Pruned(DequeOf(events, key), now - window);
      (ok <==> |h| < limit) && events' == events[key := if ok then h + [now] else h]
    requires log' == if ok then log + [Event(key, now)] else log
    ensures (ok <==> Allows(log, key, now, limit, window)) && StateOk(events', Some(next), log', now, limit, window)
  {
    DequeCounts(events, log, key, now, next, limit, window);
    AllowKeeps(events, log, key, ok, now, next, limit, window);
  }

  /** The deques and the log as the next call finds them, before and after an eviction. */
  lemma EvictKeeps(events: map<Key, seq<int>>, log: seq<Event>, seen: int, now: int, next: int, limit: int, window: int)
    requires LogOk(log, seen, limit, window) && Consistent(events, log, seen, next, window) && seen <= now
    ensures LogOk(log, now, limit, window) && Consistent(events, log, now, next, window)
    ensures forall key :: key in events ==> events[key] != []
    ensures Consistent(Kept(events, now - window), log, now, now + window, window)
  {
    LaterLog(log, seen, now, limit, window);
    LaterConsistent(events, log, seen, now, next, window);
    EvictedConsistent(events, log, now, next, window);
  }

  // ---------------------------------------------------------------- the object

  class SlidingWindowLimiter {
    const limit: int
    const window: int
    var events: map<Key, seq<int>>
    var nextEvict: Option<int>
    ghost var log: seq<Event> // everything allowed so far
    ghost var seen: int       // the latest clock reading

    ghost predicate Valid()
      reads this
    {
      StateOk(events, nextEvict, log, seen, limit, window)
    }

    constructor (limit: int, window: int, now: int)
      requires limit >= 1 && window >= 0
      ensures Valid() && log == [] && this.limit == limit && this.window == window && seen == now
    {
      this.limit, this.window := limit, window;
      events, nextEvict, log, seen := map[], None, [], now;
    }

    /** The deletion loop: forget every key whose last event is at or before `cutoff`. */
    method DeleteStale(cutoff: int)
      requires forall key :: key in events ==> events[key] != []
      modifies `events
      ensures events == Kept(old(events), cutoff)
    {
      var stale := set key | key in events && events[key][|events[key]| - 1] <= cutoff;
      ghost var before := events;
      while stale != {}
        invariant stale <= before.Keys
        invariant forall key :: key in stale ==> before[key][|before[key]| - 1] <= cutoff
        invariant events == map key | key in before
          && (key in stale || before[key][|before[key]| - 1] > cutoff) :: before[key]
        decreases stale
      {
        var key :| key in stale;
        events, stale := events - {key}, stale - {key};
      }
    }

    /** Drop keys whose events have all expired, at most once per window. */
    method EvictExpired(now: int)
      requires Valid() && now >= seen
      modifies this
      ensures Valid() && seen == now && log == old(log) && nextEvict.Some?
      ensures events == if old(nextEvict).Some? && now < old(nextEvict).value then old(events)
                        else if old(nextEvict).Some? then Kept(old(events), now - window)
                        else map[]
    {
      ghost var before, due, last := events, nextEvict, seen;
      DequesStored(before, due, log, last, now - window, limit, window);
      seen := now;
      if nextEvict.Some? && now < nextEvict.value {
        EvictOk(before, due, log, last, now, limit, window, events, nextEvict);
        return;
      }
      DeleteStale(now - window);
      nextEvict := Some(now + window);
      EvictOk(before, due, log, last, now, limit, window, events, nextEvict);
    }

    /** `while history and history[0] <= cutoff: history.popleft()`, on the stored deque. */
    method Prune(key: Key, cutoff: int)
      requires key in events
      modifies `events
      ensures events == old(events)[key := Pruned(old(events)[key], cutoff)]
    {
      ghost var before := events;
      while events[key] != [] && events[key][0] <= cutoff
        invariant key in events && events == before[key := events[key]]
        invariant Pruned(events[key], cutoff) == Pruned(before[key], cutoff)
        decreases |events[key]|
      {
        events := events[key := events[key][1..]];
      }
    }

    /** The key's deque pruned and counted, with `now` appended when there is room. */
    method Count(key: Key, now: int) returns (ok: bool)
      modifies `events
      ensures var h := Pruned(DequeOf(old(events), key), now - window);
        (ok <==> |h| < limit) && events == old(events)[key := if ok then h + [now] else h]
    {
      if key !in events {
        events := events[key := []];
      }
      Prune(key, now - window);
      ok := |events[key]| < limit;
      if ok {
        events := events[key := events[key] + [now]];
      }
    }

    /**
     Record one event; answer exactly what the naive limiter answers over everything allowed so far.
     `Valid` says that no stored deque is ever left empty.
     */
    method Allow(key: Key, now: int) returns (ok: bool)
      requires Valid() && now >= seen
      modifies this
      ensures Valid() && seen == now
      ensures ok <==> Allows(old(log), key, now, limit, window)
      ensures log == if ok then old(log) + [Event(key, now)] else old(log)
    {
      EvictExpired(now);
      ghost var before, logged := events, log;
      ok := Count(key, now);
      if ok {
        log := log + [Event(key, now)];
      }
      AllowOk(before, nextEvict.value, logged, key, now, limit, window, ok, events, log);
    }
  }
}
