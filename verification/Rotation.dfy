/** The rotating truncation window of the per-tick scope caps, and its fairness over a fixed list. */
module Rotation {

  function Served<T>(items: seq<T>, offset: nat, cap: nat): seq<T> {
    if |items| <= cap then items
    else
      var start := offset % |items|;
      (items[start..] + items[..start])[..cap]
  }

  function NextOffset(n: nat, offset: nat, cap: nat): nat {
    if n <= cap then offset else offset % n + cap
  }

  /** The offset after `ticks` ticks over a list of `n`. */
  function OffsetAfter(n: nat, offset: nat, cap: nat, ticks: nat): nat {
    if ticks == 0 then offset else NextOffset(n, OffsetAfter(n, offset, cap, ticks - 1), cap)
  }

  function Indices(n: nat): seq<nat> {
    seq(n, i requires 0 <= i < n => i)
  }

  /** Whether index `i` is served by the tick that follows `ticks` others. */
  predicate ServedAt(n: nat, offset: nat, cap: nat, ticks: nat, i: nat) {
    i in Served(Indices(n), OffsetAfter(n, offset, cap, ticks), cap)
  }

  /** How often `i` was served in the first `ticks` ticks. */
  function Services(n: nat, offset: nat, cap: nat, ticks: nat, i: nat): nat {
    if ticks == 0 then 0
    else Services(n, offset, cap, ticks - 1, i) + (if ServedAt(n, offset, cap, ticks - 1, i) then 1 else 0)
  }

  // ---------------------------------------------------------------- the window is an arc

  lemma ModSmall(x: nat, n: nat)
    requires x < n
    ensures x % n == x
  {
  }

  lemma ModOnce(x: nat, n: nat)
    requires n <= x < n + n
    ensures x % n == x - n
  {
    assert x / n == 1;
  }

  lemma WrapOnce(s: nat, cap: nat, n: nat)
    requires s < n && cap < n
    ensures (s + cap) % n == if s + cap >= n then s + cap - n else s + cap
  {
    if s + cap >= n {
      ModOnce(s + cap, n);
    } else {
      ModSmall(s + cap, n);
    }
  }

  lemma ModBelow(x: nat, n: nat)
    requires n > 0
    ensures x % n < n
  {
  }

  /** The window holds the indices of the arc that begins at the offset, around the end if need be. */
  predicate OnArc(n: nat, start: nat, cap: nat, i: nat) {
    start <= i < start + cap || i + n < start + cap
  }

  lemma ServedIsArc(n: nat, offset: nat, cap: nat, i: nat)
    requires cap < n && i < n
    ensures i in Served(Indices(n), offset, cap) <==> OnArc(n, offset % n, cap, i)
    ensures |Served(Indices(n), offset, cap)| == cap
  {
    var all, start := Indices(n), offset % n;
    var around := all[start..] + all[..start];
    assert forall k :: 0 <= k < n ==> around[k] == if start + k < n then start + k else start + k - n;
    if OnArc(n, start, cap, i) {
      var k := if start <= i then i - start else i - start + n;
      assert around[..cap][k] == i;
    }
  }

  /** Where the window begins after `ticks` ticks, and how often it has passed the end. */
  function Start(n: nat, offset: nat, cap: nat, ticks: nat): nat
    requires n > 0
  {
    OffsetAfter(n, offset, cap, ticks) % n
  }

  function Laps(n: nat, offset: nat, cap: nat, ticks: nat): nat
    requires n > 0
  {
    if ticks == 0 then 0
    else Laps(n, offset, cap, ticks - 1) + (if Start(n, offset, cap, ticks - 1) + cap >= n then 1 else 0)
  }

  lemma StartMoves(n: nat, offset: nat, cap: nat, ticks: nat)
    requires cap < n
    ensures var s := Start(n, offset, cap, ticks);
      Start(n, offset, cap, ticks + 1) == if s + cap >= n then s + cap - n else s + cap
  {
    var o := OffsetAfter(n, offset, cap, ticks);
    ModBelow(o, n);
    WrapOnce(o % n, cap, n);
    assert OffsetAfter(n, offset, cap, ticks + 1) == o % n + cap;
  }

  function Before(i: nat, s: nat): int {
    if i < s then 1 else 0
  }

  /** Each index is served once a lap; the current and the first lap are only partly done. */
  lemma {:induction false} ServicesCountLaps(n: nat, offset: nat, cap: nat, ticks: nat, i: nat)
    requires cap < n && i < n
    ensures Services(n, offset, cap, ticks, i)
            == Laps(n, offset, cap, ticks) + Before(i, Start(n, offset, cap, ticks)) - Before(i, offset % n)
  {
    if ticks > 0 {
      ServicesCountLaps(n, offset, cap, ticks - 1, i);
      StartMoves(n, offset, cap, ticks - 1);
      ServedIsArc(n, OffsetAfter(n, offset, cap, ticks - 1), cap, i);
    }
  }

  /** Fairness: at every moment two scopes of a fixed list have been served equally often, give or take one. */
  lemma RotationIsFair(n: nat, offset: nat, cap: nat, ticks: nat, i: nat, j: nat)
    requires cap < n && i < n && j < n
    ensures -1 <= Services(n, offset, cap, ticks, i) - Services(n, offset, cap, ticks, j) <= 1
  {
    ServicesCountLaps(n, offset, cap, ticks, i);
    ServicesCountLaps(n, offset, cap, ticks, j);
  }

  lemma {:induction false} LapsMeasureDistance(n: nat, offset: nat, cap: nat, ticks: nat)
    requires cap < n
    ensures Laps(n, offset, cap, ticks) * n + Start(n, offset, cap, ticks) == offset % n + ticks * cap
  {
    if ticks > 0 {
      LapsMeasureDistance(n, offset, cap, ticks - 1);
      StartMoves(n, offset, cap, ticks - 1);
      var laps, start := Laps(n, offset, cap, ticks - 1), Start(n, offset, cap, ticks - 1);
      OneTickMore(laps, n, start, cap, ticks, offset % n);
    }
  }

  lemma OneTickMore(laps: nat, n: nat, start: nat, cap: nat, ticks: nat, first: nat)
    requires ticks > 0 && laps * n + start == first + (ticks - 1) * cap
    ensures laps * n + (start + cap) == first + ticks * cap
    ensures (laps + 1) * n + (start + cap - n) == first + ticks * cap
  {
    assert (laps + 1) * n == laps * n + n;
    assert ticks * cap == (ticks - 1) * cap + cap;
  }

  /** A distance of a whole list is a lap, and a lap and no more ends past where it began. */
  lemma LapsCover(laps: nat, n: nat, start: nat, first: nat, distance: nat)
    requires laps * n + start == first + distance && n <= distance && start < n
    ensures laps >= 1 && (laps == 1 ==> first <= start)
  {
    assert laps == 0 ==> laps * n == 0;
  }

  /** No starvation: once the ticks add up to the whole list, every scope has been served. */
  lemma EveryoneIsServed(n: nat, offset: nat, cap: nat, ticks: nat, i: nat)
    requires cap < n && i < n && n <= ticks * cap
    ensures Services(n, offset, cap, ticks, i) >= 1
  {
    ServicesCountLaps(n, offset, cap, ticks, i);
    LapsMeasureDistance(n, offset, cap, ticks);
    ModBelow(OffsetAfter(n, offset, cap, ticks), n);
    LapsCover(Laps(n, offset, cap, ticks), n, Start(n, offset, cap, ticks), offset % n, ticks * cap);
  }

  lemma {:induction false} OffsetsCompose(n: nat, offset: nat, cap: nat, a: nat, b: nat)
    ensures OffsetAfter(n, offset, cap, a + b) == OffsetAfter(n, OffsetAfter(n, offset, cap, a), cap, b)
  {
    if b > 0 {
      OffsetsCompose(n, offset, cap, a, b - 1);
      assert a + b - 1 == a + (b - 1);
    }
  }

  lemma {:induction false} ServedSometime(n: nat, offset: nat, cap: nat, ticks: nat, i: nat) returns (k: nat)
    requires Services(n, offset, cap, ticks, i) >= 1
    ensures k < ticks && ServedAt(n, offset, cap, k, i)
  {
    if ServedAt(n, offset, cap, ticks - 1, i) {
      k := ticks - 1;
    } else {
      k := ServedSometime(n, offset, cap, ticks - 1, i);
    }
  }

  /** Every scope is selected within any stretch of consecutive ticks long enough to cover the list. */
  lemma ServedInEveryStretch(n: nat, offset: nat, cap: nat, from: nat, ticks: nat, i: nat)
    requires cap < n && i < n && n <= ticks * cap
    ensures exists k :: from <= k < from + ticks && ServedAt(n, offset, cap, k, i)
  {
    var there := OffsetAfter(n, offset, cap, from);
    EveryoneIsServed(n, there, cap, ticks, i);
    var k := ServedSometime(n, there, cap, ticks, i);
    OffsetsCompose(n, offset, cap, from, k);
    assert ServedAt(n, offset, cap, from + k, i);
  }
}
