/**
 Watermark windows of one recurring digest: the archive slice a run reads when its window is
 "since the last run".  Every run starts where an earlier stamp ended, so slices never overlap.
 */
module Watermarks {
  import opened Basics
  import opened Models

  const MAX_WINDOW := 30 * DAY

  /** A run: the stored stamp it was handed, and the stamp written for it. */
  datatype Span = Span(since: int, at: int)

  /** Where the archive window of a run starts. */
  function WindowStart(span: Span): int {
    if span.since < span.at - MAX_WINDOW then span.at - MAX_WINDOW else span.since
  }

  /** `archive.window` is half-open. */
  predicate InWindow(span: Span, t: int) {
    WindowStart(span) <= t < span.at
  }

  /** A run reads what came since the stamp it was handed, before its own, and in the last thirty days. */
  lemma WindowIsRecent(span: Span, t: int)
    ensures InWindow(span, t) <==> span.since <= t < span.at && span.at - t <= 30 * 24 * 3600 * 1_000_000
  {
  }

  /** Each run was handed a stamp no older than any earlier run's own, and the stored stamp is newer than all. */
  ghost predicate Chained(spans: seq<Span>, lastRun: Option<int>) {
    && (forall i, j :: 0 <= i < j < |spans| ==> spans[i].at <= spans[j].since)
    && (forall i :: 0 <= i < |spans| ==> lastRun.Some? && spans[i].since < spans[i].at <= lastRun.value)
  }

  /** Stamping without running (a lost write, a crash) keeps the chain, and so does stamping and running. */
  lemma StampKeepsChain(spans: seq<Span>, lastRun: int, now: int)
    requires Chained(spans, Some(lastRun)) && lastRun < now
    ensures Chained(spans, Some(now))
    ensures Chained(spans + [Span(lastRun, now)], Some(now))
  {
  }

  /** Each archived message falls in the window of at most one run. */
  lemma WindowsDisjoint(spans: seq<Span>, lastRun: Option<int>, i: nat, j: nat, t: int)
    requires Chained(spans, lastRun) && i < j < |spans|
    ensures !(InWindow(spans[i], t) && InWindow(spans[j], t))
  {
  }

  // ---------------------------------------------------------------- tiling

  /** The landed stamps of one row, each later than the one before. */
  ghost predicate Rising(stamps: seq<int>) {
    forall i, j :: 0 <= i < j < |stamps| ==> stamps[i] < stamps[j]
  }

  /** The run that stamp number `k + 1` was written for. */
  function RunOf(stamps: seq<int>, k: nat): Span
    requires k + 1 < |stamps|
  {
    Span(stamps[k], stamps[k + 1])
  }

  /** Some stamp was written for this run. */
  ghost predicate HasStamp(stamps: seq<int>, span: Span) {
    exists k :: 0 <= k && k + 1 < |stamps| && RunOf(stamps, k) == span
  }

  /** The stamps rise to the stored one, and every run started was handed one and left the next. */
  ghost predicate Recorded(stamps: seq<int>, spans: seq<Span>, lastRun: Option<int>) {
    && Rising(stamps)
    && lastRun == (if stamps == [] then None else Some(stamps[|stamps| - 1]))
    && forall span :: span in spans ==> HasStamp(stamps, span)
  }

  lemma RecordsStamp(stamps: seq<int>, spans: seq<Span>, lastRun: Option<int>, now: int)
    requires Recorded(stamps, spans, lastRun) && (lastRun.Some? ==> lastRun.value < now)
    ensures Recorded(stamps + [now], spans, Some(now))
    ensures lastRun.Some? ==> Recorded(stamps + [now], spans + [Span(lastRun.value, now)], Some(now))
  {
    forall span | span in spans
      ensures HasStamp(stamps + [now], span)
    {
      var k :| 0 <= k && k + 1 < |stamps| && RunOf(stamps, k) == span;
      assert RunOf(stamps + [now], k) == span;
    }
    if lastRun.Some? {
      assert RunOf(stamps + [now], |stamps| - 1) == Span(lastRun.value, now);
    }
  }

  /** The stamp `now` has landed right after `since`, and the run it was written for has not started. */
  ghost predicate Awaiting(stamps: seq<int>, spans: seq<Span>, since: int, now: int) {
    && |stamps| >= 2 && stamps[|stamps| - 2] == since && stamps[|stamps| - 1] == now
    && forall k :: 0 <= k < |spans| ==> spans[k].at <= since
  }

  lemma StampAwaits(stamps: seq<int>, spans: seq<Span>, since: int, now: int)
    requires Chained(spans, Some(since)) && Recorded(stamps, spans, Some(since))
    ensures Awaiting(stamps + [now], spans, since, now)
  {
  }

  /** The run starts: it is the one its stamp was written for, it is new, and the chain goes on. */
  lemma AwaitedStarts(stamps: seq<int>, spans: seq<Span>, since: int, now: int)
    requires Chained(spans, Some(now)) && Recorded(stamps, spans, Some(now)) && Awaiting(stamps, spans, since, now)
    ensures Span(since, now) == RunOf(stamps, |stamps| - 2) && Span(since, now) !in spans
    ensures Chained(spans + [Span(since, now)], Some(now)) && Recorded(stamps, spans + [Span(since, now)], Some(now))
  {
    assert RunOf(stamps, |stamps| - 2) == Span(since, now);
    assert since < now;
    forall span | span in spans ensures span != Span(since, now) {
      var k :| 0 <= k < |spans| && spans[k] == span;
    }
  }

  ghost predicate Covered(spans: seq<Span>, t: int) {
    exists k :: 0 <= k < |spans| && InWindow(spans[k], t)
  }

  /** Every landed stamp but the first started its run, and none came more than 30 days after the one before. */
  ghost predicate NothingLost(stamps: seq<int>, spans: seq<Span>) {
    forall k :: 0 <= k && k + 1 < |stamps| ==>
      RunOf(stamps, k) in spans && RunOf(stamps, k).at - RunOf(stamps, k).since <= MAX_WINDOW
  }

  /** The stamps that enclose `t`. */
  lemma {:induction false} Enclosing(stamps: seq<int>, t: int) returns (k: nat)
    requires stamps != [] && stamps[0] <= t < stamps[|stamps| - 1]
    ensures k + 1 < |stamps| && stamps[k] <= t < stamps[k + 1]
    decreases |stamps|
  {
    var last := |stamps| - 1;
    if stamps[last - 1] <= t {
      k := last - 1;
    } else {
      k := Enclosing(stamps[..last], t);
    }
  }

  /** The first instant after a stamp whose next one lost its run, or came too late, is read by no run. */
  lemma LostSliceIsUncovered(stamps: seq<int>, spans: seq<Span>, lastRun: Option<int>, k: nat)
    requires Recorded(stamps, spans, lastRun) && k + 1 < |stamps|
    requires RunOf(stamps, k) !in spans || stamps[k + 1] - stamps[k] > MAX_WINDOW
    ensures !Covered(spans, stamps[k])
  {
    forall j | 0 <= j < |spans|
      ensures !InWindow(spans[j], stamps[k])
    {
      assert spans[j] in spans;
      var at :| 0 <= at && at + 1 < |stamps| && RunOf(stamps, at) == spans[j];
      assert at < k ==> stamps[at + 1] <= stamps[k];
    }
  }

  /**
   Over any history, with whatever lost writes and crashes, the windows tile
   `[first stamp, last stamp)` exactly when every stamp that landed after the first started its run
   and no two consecutive stamps lie more than 30 days apart.
   */
  lemma WindowsTileExactly(stamps: seq<int>, spans: seq<Span>, lastRun: Option<int>)
    requires stamps != [] && Recorded(stamps, spans, lastRun)
    ensures (forall t :: Covered(spans, t) <==> stamps[0] <= t < stamps[|stamps| - 1]) <==> NothingLost(stamps, spans)
  {
    forall t | Covered(spans, t)
      ensures stamps[0] <= t < stamps[|stamps| - 1]
    {
      var j :| 0 <= j < |spans| && InWindow(spans[j], t);
      assert spans[j] in spans;
      var k :| 0 <= k && k + 1 < |stamps| && RunOf(stamps, k) == spans[j];
    }
    if NothingLost(stamps, spans) {
      forall t | stamps[0] <= t < stamps[|stamps| - 1]
        ensures Covered(spans, t)
      {
        var k := Enclosing(stamps, t);
        assert RunOf(stamps, k) in spans;
        var j :| 0 <= j < |spans| && spans[j] == RunOf(stamps, k);
        assert InWindow(spans[j], t);
      }
    } else {
      var k :| 0 <= k && k + 1 < |stamps|
        && (RunOf(stamps, k) !in spans || RunOf(stamps, k).at - RunOf(stamps, k).since > MAX_WINDOW);
      LostSliceIsUncovered(stamps, spans, lastRun, k);
    }
  }
}
