/**
 Repository polling: paging a resource stream, firing the transitions past the watermark, and
 persisting one cursor per resource.  Timestamps are ordered numbers; 0 stands for a missing one.
 */
module PollCursors {
  import opened Basics

  const PER_PAGE := 50
  const PAGE_CAP := 10

  datatype Transition = Transition(at: nat, event: string)

  /** One listed issue, pull request, comment or release. */
  datatype Item = Item(watermark: nat, transitions: seq<Transition>)

  /** The source's own shape: nothing an item reports happened after the moment it was last updated. */
  ghost predicate Dated(items: seq<Item>) {
    forall i, t :: 0 <= i < |items| && t in items[i].transitions ==> t.at <= items[i].watermark
  }

  // ---------------------------------------------------------------- collecting

  function Newer(transitions: seq<Transition>, watermark: nat): seq<Transition> {
    if transitions == [] then []
    else Newer(transitions[..|transitions| - 1], watermark)
         + (if transitions[|transitions| - 1].at > watermark then [transitions[|transitions| - 1]] else [])
  }

  function Fired(items: seq<Item>, watermark: nat): seq<Transition> {
    if items == [] then []
    else Fired(items[..|items| - 1], watermark) + Newer(items[|items| - 1].transitions, watermark)
  }

  function Max(x: nat, y: nat): nat {
    if x < y then y else x
  }

  function Watermark(items: seq<Item>, watermark: nat): nat {
    if items == [] then watermark else Max(Watermark(items[..|items| - 1], watermark), items[|items| - 1].watermark)
  }

  method Collect(items: seq<Item>, watermark: nat) returns (fired: seq<Transition>, newWatermark: nat)
    ensures fired == Fired(items, watermark) && newWatermark == Watermark(items, watermark)
  {
    fired, newWatermark := [], watermark;
    for n := 0 to |items|
      invariant fired == Fired(items[..n], watermark) && newWatermark == Watermark(items[..n], watermark)
    {
      assert items[..n + 1][..n] == items[..n];
      newWatermark := Max(newWatermark, items[n].watermark);
      fired := fired + Newer(items[n].transitions, watermark);
    }
    assert items[..|items|] == items;
  }

  lemma {:induction false} NewerExactly(transitions: seq<Transition>, watermark: nat, t: Transition)
    ensures t in Newer(transitions, watermark) <==> t in transitions && t.at > watermark
  {
    if transitions != [] {
      NewerExactly(transitions[..|transitions| - 1], watermark, t);
      assert transitions == transitions[..|transitions| - 1] + [transitions[|transitions| - 1]];
    }
  }

  ghost predicate Present(items: seq<Item>, t: Transition) {
    exists i :: 0 <= i < |items| && t in items[i].transitions
  }

  lemma PresentGrows(front: seq<Item>, last: Item, t: Transition)
    ensures Present(front + [last], t) <==> Present(front, t) || t in last.transitions
  {
    var items := front + [last];
    if Present(front, t) {
      var i :| 0 <= i < |front| && t in front[i].transitions;
      assert items[i] == front[i];
    }
    assert items[|front|] == last;
    assert forall i :: 0 <= i < |front| ==> items[i] == front[i];
  }

  /** A transition fires exactly when some listed item reports it and it is newer than the watermark. */
  lemma {:induction false} FiredExactly(items: seq<Item>, watermark: nat, t: Transition)
    ensures t in Fired(items, watermark) <==> Present(items, t) && t.at > watermark
  {
    if items != [] {
      var front, last := items[..|items| - 1], items[|items| - 1];
      FiredExactly(front, watermark, t);
      NewerExactly(last.transitions, watermark, t);
      PresentGrows(front, last, t);
      assert items == front + [last];
    }
  }

  lemma {:induction false} WatermarkBounds(items: seq<Item>, watermark: nat)
    ensures watermark <= Watermark(items, watermark)
    ensures forall i :: 0 <= i < |items| ==> items[i].watermark <= Watermark(items, watermark)
    ensures (forall i :: 0 <= i < |items| ==> items[i].watermark <= watermark) ==>
      Watermark(items, watermark) == watermark
  {
    if items != [] {
      WatermarkBounds(items[..|items| - 1], watermark);
    }
  }

  /** Whatever fires lies past the old watermark and not past the new one. */
  lemma FiredLiesBetween(items: seq<Item>, watermark: nat, t: Transition)
    requires Dated(items) && t in Fired(items, watermark)
    ensures watermark < t.at <= Watermark(items, watermark)
  {
    FiredExactly(items, watermark, t);
    WatermarkBounds(items, watermark);
    var i :| 0 <= i < |items| && t in items[i].transitions;
  }

  /** Everything a listing reports, in listing order. */
  function Reported(items: seq<Item>): seq<Transition> {
    if items == [] then [] else Reported(items[..|items| - 1]) + items[|items| - 1].transitions
  }

  lemma CountAppend(s: seq<Transition>, last: Transition, t: Transition)
    ensures multiset(s + [last])[t] == multiset(s)[t] + (if last == t then 1 else 0)
  {
    assert multiset(s + [last]) == multiset(s) + multiset{last};
  }

  lemma NewerAppend(front: seq<Transition>, last: Transition, watermark: nat)
    ensures Newer(front + [last], watermark)
      == if last.at > watermark then Newer(front, watermark) + [last] else Newer(front, watermark)
  {
    assert (front + [last])[..|front|] == front;
  }

  lemma {:induction false} NewerCount(transitions: seq<Transition>, watermark: nat, t: Transition)
    ensures multiset(Newer(transitions, watermark))[t] == if t.at > watermark then multiset(transitions)[t] else 0
  {
    if transitions != [] {
      var front, last := transitions[..|transitions| - 1], transitions[|transitions| - 1];
      assert transitions == front + [last];
      NewerAppend(front, last, watermark);
      NewerCount(front, watermark, t);
      CountAppend(front, last, t);
      CountAppend(Newer(front, watermark), last, t);
    }
  }

  /** A transition fires as often as it is listed, or not at all. */
  lemma {:induction false} FiredCount(items: seq<Item>, watermark: nat, t: Transition)
    ensures multiset(Fired(items, watermark))[t] == if t.at > watermark then multiset(Reported(items))[t] else 0
  {
    if items != [] {
      FiredCount(items[..|items| - 1], watermark, t);
      NewerCount(items[|items| - 1].transitions, watermark, t);
    }
  }

  // ---------------------------------------------------------------- in time order

  /** `t` after every one that is not later. */
  function Placed(sorted: seq<Transition>, t: Transition): seq<Transition> {
    if sorted == [] || sorted[|sorted| - 1].at <= t.at then sorted + [t]
    else Placed(sorted[..|sorted| - 1], t) + [sorted[|sorted| - 1]]
  }

  /** `fired.sort(key=...)`: by time, and as they came where times are equal. */
  function InTimeOrder(fired: seq<Transition>): seq<Transition> {
    if fired == [] then [] else Placed(InTimeOrder(fired[..|fired| - 1]), fired[|fired| - 1])
  }

  ghost predicate Ascending(s: seq<Transition>) {
    forall i, j :: 0 <= i < j < |s| ==> s[i].at <= s[j].at
  }

  /** Those of one time, in order. */
  function AtTime(s: seq<Transition>, at: nat): seq<Transition> {
    if s == [] then []
    else AtTime(s[..|s| - 1], at) + (if s[|s| - 1].at == at then [s[|s| - 1]] else [])
  }

  lemma AtTimeAppend(s: seq<Transition>, t: Transition, at: nat)
    ensures AtTime(s + [t], at) == AtTime(s, at) + (if t.at == at then [t] else [])
  {
    assert (s + [t])[..|s|] == s;
  }

  lemma {:induction false} PlacedKeeps(sorted: seq<Transition>, t: Transition)
    ensures multiset(Placed(sorted, t)) == multiset(sorted) + multiset{t}
  {
    if sorted != [] && sorted[|sorted| - 1].at > t.at {
      PlacedKeeps(sorted[..|sorted| - 1], t);
      assert sorted == sorted[..|sorted| - 1] + [sorted[|sorted| - 1]];
    }
  }

  lemma {:induction false} PlacedAscends(sorted: seq<Transition>, t: Transition, bound: nat)
    requires Ascending(sorted) && t.at <= bound && forall i :: 0 <= i < |sorted| ==> sorted[i].at <= bound
    ensures Ascending(Placed(sorted, t))
    ensures forall i :: 0 <= i < |Placed(sorted, t)| ==> Placed(sorted, t)[i].at <= bound
  {
    if sorted != [] && sorted[|sorted| - 1].at > t.at {
      PlacedAscends(sorted[..|sorted| - 1], t, sorted[|sorted| - 1].at);
    }
  }

  lemma {:induction false} PlacedStable(sorted: seq<Transition>, t: Transition, at: nat)
    requires Ascending(sorted)
    ensures AtTime(Placed(sorted, t), at) == AtTime(sorted, at) + (if t.at == at then [t] else [])
  {
    if sorted == [] || sorted[|sorted| - 1].at <= t.at {
      AtTimeAppend(sorted, t, at);
    } else {
      PlacedStable(sorted[..|sorted| - 1], t, at);
      AtTimeAppend(Placed(sorted[..|sorted| - 1], t), sorted[|sorted| - 1], at);
    }
  }

  lemma LastCounted(s: seq<Transition>)
    requires s != []
    ensures multiset(s) == multiset(s[..|s| - 1]) + multiset{s[|s| - 1]}
  {
    assert s == s[..|s| - 1] + [s[|s| - 1]];
  }

  lemma {:induction false} OrderKeeps(fired: seq<Transition>)
    ensures multiset(InTimeOrder(fired)) == multiset(fired)
  {
    if fired != [] {
      var front, last := fired[..|fired| - 1], fired[|fired| - 1];
      OrderKeeps(front);
      PlacedKeeps(InTimeOrder(front), last);
      LastCounted(fired);
    }
  }

  lemma {:induction false} OrderAscends(fired: seq<Transition>)
    ensures Ascending(InTimeOrder(fired))
  {
    if fired != [] {
      var front, t := InTimeOrder(fired[..|fired| - 1]), fired[|fired| - 1];
      OrderAscends(fired[..|fired| - 1]);
      PlacedAscends(front, t, if front == [] || front[|front| - 1].at <= t.at then t.at else front[|front| - 1].at);
    }
  }

  /** The order is by time, loses and repeats nothing, and is stable. */
  lemma {:induction false} TimeOrderIsStableSort(fired: seq<Transition>, at: nat)
    ensures Ascending(InTimeOrder(fired)) && multiset(InTimeOrder(fired)) == multiset(fired)
    ensures AtTime(InTimeOrder(fired), at) == AtTime(fired, at)
  {
    OrderAscends(fired);
    OrderKeeps(fired);
    if fired != [] {
      TimeOrderIsStableSort(fired[..|fired| - 1], at);
      PlacedStable(InTimeOrder(fired[..|fired| - 1]), fired[|fired| - 1], at);
    }
  }

  lemma SameEvents(fired: seq<Transition>)
    ensures forall t :: t in InTimeOrder(fired) <==> t in fired
  {
    OrderKeeps(fired);
    forall t ensures t in InTimeOrder(fired) <==> t in fired {
      assert t in multiset(InTimeOrder(fired)) <==> t in multiset(fired);
    }
  }

  // ---------------------------------------------------------------- paging

  function Page(stream: seq<Item>, page: nat): seq<Item>
    requires page >= 1
  {
    var from, to := (page - 1) * PER_PAGE, page * PER_PAGE;
    if |stream| <= from then [] else if |stream| <= to then stream[from..] else stream[from..to]
  }

  /** A page of a stream ordered by its own watermark has reached what an earlier poll has seen. */
  predicate Past(selfOrdered: bool, watermark: nat, batch: seq<Item>) {
    selfOrdered && watermark > 0 && batch != [] && batch[|batch| - 1].watermark <= watermark
  }

  function Min(x: nat, y: nat): nat {
    if x < y then x else y
  }

  /** Pages until one is short, one is past the watermark, or the cap is reached; the stream is one snapshot. */
  method FetchPages(stream: seq<Item>, selfOrdered: bool, watermark: nat) returns (items: seq<Item>, saturated: bool)
    ensures |items| <= Min(|stream|, PAGE_CAP * PER_PAGE) && items == stream[..|items|]
    ensures |items| == Min(|stream|, PAGE_CAP * PER_PAGE)
      || (selfOrdered && watermark > 0 && items != [] && items[|items| - 1].watermark <= watermark)
    ensures forall page :: 1 <= page && PER_PAGE * page < |items| ==> !Past(selfOrdered, watermark, Page(stream, page))
    ensures saturated <==> |items| == PAGE_CAP * PER_PAGE && !Past(selfOrdered, watermark, items)
  {
    items, saturated := [], true;
    for page := 1 to PAGE_CAP + 1
      invariant saturated && ReadSoFar(stream, items, page - 1, selfOrdered, watermark)
    {
      var batch := Page(stream, page);
      ReadsOn(stream, items, page, selfOrdered, watermark);
      items := items + batch;
      if |batch| < PER_PAGE || Past(selfOrdered, watermark, batch) {
        saturated := false;
        break;
      }
    }
  }

  /** That many full pages, none of which ends the poll. */
  ghost predicate ReadSoFar(stream: seq<Item>, items: seq<Item>, pages: nat, selfOrdered: bool, watermark: nat) {
    && |items| == pages * PER_PAGE <= |stream| && items == stream[..|items|]
    && !Past(selfOrdered, watermark, items)
    && forall page :: 1 <= page <= pages ==> !Past(selfOrdered, watermark, Page(stream, page))
  }

  /** One page more: it is read to its end, and ends the poll or not. */
  lemma ReadsOn(stream: seq<Item>, items: seq<Item>, page: nat, selfOrdered: bool, watermark: nat)
    requires page >= 1 && ReadSoFar(stream, items, page - 1, selfOrdered, watermark)
    ensures var batch, more := Page(stream, page), items + Page(stream, page);
      && |more| == Min(|stream|, page * PER_PAGE) && more == stream[..|more|]
      && (Past(selfOrdered, watermark, batch) <==> Past(selfOrdered, watermark, more))
      && (|batch| == PER_PAGE && !Past(selfOrdered, watermark, batch) ==>
            ReadSoFar(stream, more, page, selfOrdered, watermark))
      && (|batch| < PER_PAGE ==> |more| == |stream| < page * PER_PAGE)
  {
    var batch := Page(stream, page);
    if batch != [] {
      assert (items + batch)[|items + batch| - 1] == batch[|batch| - 1];
    } else {
      assert items + batch == items;
    }
  }

  /** When a page ends a poll early. */
  lemma PastMeans(stream: seq<Item>, page: nat, selfOrdered: bool, watermark: nat)
    requires page >= 1 && 50 * page <= |stream|
    ensures Past(selfOrdered, watermark, Page(stream, page))
      <==> selfOrdered && watermark > 0 && stream[50 * page - 1].watermark <= watermark
  {
    assert Page(stream, page)[49] == stream[50 * page - 1];
  }

  ghost predicate Descending(stream: seq<Item>) {
    forall i, j :: 0 <= i < j < |stream| ==> stream[j].watermark <= stream[i].watermark
  }

  lemma {:induction false} OldTailAddsNothing(stream: seq<Item>, n: nat, m: nat, watermark: nat)
    requires n <= m <= |stream| && Dated(stream)
    requires forall i :: n <= i < m ==> stream[i].watermark <= watermark
    ensures Fired(stream[..m], watermark) == Fired(stream[..n], watermark)
    ensures Watermark(stream[..m], watermark) == Watermark(stream[..n], watermark)
    decreases m
  {
    if n < m {
      OldTailAddsNothing(stream, n, m - 1, watermark);
      assert stream[..m][..m - 1] == stream[..m - 1];
      NothingNewer(stream[m - 1].transitions, watermark);
      WatermarkBounds(stream[..m - 1], watermark);
    }
  }

  lemma {:induction false} NothingNewer(transitions: seq<Transition>, watermark: nat)
    requires forall t :: t in transitions ==> t.at <= watermark
    ensures Newer(transitions, watermark) == []
  {
    if transitions != [] {
      NothingNewer(transitions[..|transitions| - 1], watermark);
      assert transitions[|transitions| - 1] in transitions;
    }
  }

  /**
   On a stream ordered by its own watermark, stopping at the first page past it fires the same
   transitions and leaves the same watermark as reading every page up to the cap.
   */
  lemma EarlyStopLosesNothing(stream: seq<Item>, items: seq<Item>, watermark: nat)
    requires Dated(stream) && Descending(stream)
    requires |items| <= Min(|stream|, PAGE_CAP * PER_PAGE) && items == stream[..|items|]
    requires |items| == Min(|stream|, PAGE_CAP * PER_PAGE) || Past(true, watermark, items)
    ensures var all := stream[..Min(|stream|, PAGE_CAP * PER_PAGE)];
      Fired(items, watermark) == Fired(all, watermark) && Watermark(items, watermark) == Watermark(all, watermark)
  {
    var n, m := |items|, Min(|stream|, PAGE_CAP * PER_PAGE);
    if n < m {
      assert items[n - 1] == stream[n - 1];
      OldTailAddsNothing(stream, n, m, watermark);
    }
  }

  // ---------------------------------------------------------------- one poll

  /** What one resource answers: an error, or its listing with the server's clock (0: no Date header). */
  datatype Reply = Failed | Listed(items: seq<Item>, serverNow: nat)

  /** The cursor write: it may land and still be reported as failed. */
  datatype Write = Write(landed: bool, reported: bool)

  type Cursors = map<string, nat>

  /** The events and the new cursor of one resource; without a cursor it only baselines. */
  function Polled(previous: Option<nat>, reply: Reply): (seq<Transition>, nat)
    requires reply.Listed?
  {
    match previous
    case None => ([], reply.serverNow)
    case Some(w) => (InTimeOrder(Fired(reply.items, w)), Watermark(reply.items, w))
  }

  /** One resource polled for real, page by page: the same answer as reading the stream up to the cap in one go. */
  method PollResource(stream: seq<Item>, selfOrdered: bool, previous: Option<nat>, serverNow: nat)
      returns (events: seq<Transition>, cursor: nat, saturated: bool)
    requires Dated(stream) && (selfOrdered ==> Descending(stream)) && previous != Some(0)
    ensures (events, cursor) == Polled(previous, Listed(stream[..Min(|stream|, PAGE_CAP * PER_PAGE)], serverNow))
    ensures saturated ==> |stream| >= PAGE_CAP * PER_PAGE
    ensures previous.None? || !selfOrdered ==> (saturated <==> |stream| >= PAGE_CAP * PER_PAGE)
  {
    var watermark := if previous.Some? then previous.value else 0;
    var items;
    items, saturated := FetchPages(stream, selfOrdered, watermark);
    if previous.None? {
      return [], serverNow, saturated;
    }
    events, cursor := Collect(items, watermark);
    if selfOrdered {
      EarlyStopLosesNothing(stream, items, watermark);
    }
    events := InTimeOrder(events);
  }

  function Stored(cursors: Cursors, resource: string): Option<nat> {
    if resource in cursors && cursors[resource] > 0 then Some(cursors[resource]) else None
  }

  /** The loop over resources: the cursors it would write and the events collected, or `None` on an error. */
  function Swept(cursors: Cursors, resources: seq<string>, replies: seq<Reply>)
      : Option<(Cursors, seq<(string, Transition)>)>
    requires |replies| == |resources|
  {
    if resources == [] then Some((cursors, []))
    else
      var n := |resources| - 1;
      match Swept(cursors, resources[..n], replies[..n])
      case None => None
      case Some((sofar, collected)) =>
        if replies[n].Failed? then None
        else
          var (events, cursor) := Polled(Stored(cursors, resources[n]), replies[n]);
          Some((if cursor > 0 then sofar[resources[n] := cursor] else sofar,
                collected + Tagged(resources[n], events)))
  }

  function Tagged(resource: string, events: seq<Transition>): seq<(string, Transition)> {
    seq(|events|, k requires 0 <= k < |events| => (resource, events[k]))
  }

  /** `_poll`: what is handed on for delivery, and what is stored afterwards. */
  function PollStep(stored: Cursors, resources: seq<string>, replies: seq<Reply>, write: Write)
      : (Cursors, seq<(string, Transition)>)
    requires |replies| == |resources|
  {
    match Swept(stored, resources, replies)
    case None => (stored, [])
    case Some((cursors, collected)) =>
      if cursors == stored then (stored, collected)
      else (if write.landed then cursors else stored, if write.reported then collected else [])
  }

  /** A cursor that differs from the stored one changes the cursors; the same one changes nothing. */
  lemma CursorChanges(cursors: Cursors, stored: Cursors, resource: string, cursor: nat)
    requires Lookup(cursors, resource) == Lookup(stored, resource)
    ensures cursor > 0 && Some(cursor) != Stored(stored, resource) ==> cursors[resource := cursor] != stored
    ensures cursor > 0 && Some(cursor) == Stored(stored, resource) ==> cursors[resource := cursor] == cursors
  {
    assert cursors[resource := cursor][resource] == cursor;
  }

  method Poll(stored: Cursors, resources: seq<string>, replies: seq<Reply>, write: Write)
      returns (delivered: seq<(string, Transition)>, after: Cursors)
    requires |replies| == |resources|
    requires forall i, j :: 0 <= i < j < |resources| ==> resources[i] != resources[j]
    ensures (after, delivered) == PollStep(stored, resources, replies, write)
  {
    var cursors, collected: seq<(string, Transition)>, changed := stored, [], false;
    for n := 0 to |resources|
      invariant Swept(stored, resources[..n], replies[..n]) == Some((cursors, collected))
      invariant changed <==> cursors != stored
    {
      SweptNext(stored, resources, replies, n);
      var previous := Stored(stored, resources[n]);
      if replies[n].Failed? {
        SweptFails(stored, resources, replies, n + 1);
        return [], stored;
      }
      var events: seq<Transition>, cursor := [], replies[n].serverNow;
      if previous.Some? {
        events, cursor := Collect(replies[n].items, previous.value);
        events := InTimeOrder(events);
      }
      collected := collected + Tagged(resources[n], events);
      SweptElsewhere(stored, resources[..n], replies[..n], resources[n]);
      CursorChanges(cursors, stored, resources[n], cursor);
      if cursor > 0 && Some(cursor) != previous {
        cursors, changed := cursors[resources[n] := cursor], true;
      }
    }
    assert resources[..|resources|] == resources && replies[..|replies|] == replies;
    if !changed {
      return collected, stored;
    }
    after := if write.landed then cursors else stored;
    delivered := if write.reported then collected else [];
  }

  lemma SweptNext(cursors: Cursors, resources: seq<string>, replies: seq<Reply>, n: nat)
    requires |replies| == |resources| && n < |resources|
    requires Swept(cursors, resources[..n], replies[..n]).Some?
    ensures var (sofar, collected) := Swept(cursors, resources[..n], replies[..n]).value;
      Swept(cursors, resources[..n + 1], replies[..n + 1])
      == if replies[n].Failed? then None
         else var (events, cursor) := Polled(Stored(cursors, resources[n]), replies[n]);
           Some((if cursor > 0 then sofar[resources[n] := cursor] else sofar,
                 collected + Tagged(resources[n], events)))
  {
    assert resources[..n + 1][..n] == resources[..n] && replies[..n + 1][..n] == replies[..n];
  }

  lemma {:induction false} SweptFails(cursors: Cursors, resources: seq<string>, replies: seq<Reply>, n: nat)
    requires |replies| == |resources| && n <= |resources|
    requires Swept(cursors, resources[..n], replies[..n]).None?
    ensures Swept(cursors, resources, replies).None?
    decreases |resources|
  {
    if n < |resources| {
      var m := |resources| - 1;
      assert resources[..m][..n] == resources[..n] && replies[..m][..n] == replies[..n];
      SweptFails(cursors, resources[..m], replies[..m], n);
    } else {
      assert resources[..n] == resources && replies[..n] == replies;
    }
  }

  // ---------------------------------------------------------------- whole histories

  datatype Round = Round(resources: seq<string>, replies: seq<Reply>, write: Write)

  datatype Delivery = Delivery(round: nat, resource: string, transition: Transition)

  datatype State = State(stored: Cursors, rounds: nat, log: seq<Delivery>)

  /** One reply for each resource. */
  predicate Shaped(r: Round) {
    |r.replies| == |r.resources|
  }

  /** Distinct resources, dated listings, and a store that never reports a lost write as done. */
  ghost predicate RoundOk(r: Round) {
    && Shaped(r)
    && (forall i, j :: 0 <= i < j < |r.resources| ==> r.resources[i] != r.resources[j])
    && (forall k :: 0 <= k < |r.replies| && r.replies[k].Listed? ==> Dated(r.replies[k].items))
    && (r.write.reported ==> r.write.landed)
  }

  function Deliveries(round: nat, events: seq<(string, Transition)>): seq<Delivery> {
    seq(|events|, k requires 0 <= k < |events| => Delivery(round, events[k].0, events[k].1))
  }

  function Step(st: State, r: Round): State
    requires Shaped(r)
  {
    var (stored, delivered) := PollStep(st.stored, r.resources, r.replies, r.write);
    State(stored, st.rounds + 1, st.log + Deliveries(st.rounds, delivered))
  }

  function Run(st: State, rounds: seq<Round>): State
    requires forall r :: r in rounds ==> Shaped(r)
  {
    if rounds == [] then st else Step(Run(st, rounds[..|rounds| - 1]), rounds[|rounds| - 1])
  }

  /** Every cursor at or past the one before; every event collected lies between the two. */
  ghost predicate Advances(before: Cursors, after: Cursors, collected: seq<(string, Transition)>) {
    && (forall r :: r in before ==> r in after && before[r] <= after[r])
    && (forall e :: e in collected ==>
          e.0 in before && e.0 in after && before[e.0] < e.1.at <= after[e.0])
  }

  /** The events of each resource in time order. */
  ghost predicate EachAscending(collected: seq<(string, Transition)>) {
    forall i, j :: 0 <= i < j < |collected| && collected[i].0 == collected[j].0 ==>
      collected[i].1.at <= collected[j].1.at
  }

  lemma TaggedAscends(collected: seq<(string, Transition)>, resource: string, previous: Option<nat>, reply: Reply)
    requires EachAscending(collected) && reply.Listed? && forall e :: e in collected ==> e.0 != resource
    ensures EachAscending(collected + Tagged(resource, Polled(previous, reply).0))
  {
    if previous.Some? {
      OrderAscends(Fired(reply.items, previous.value));
    }
    var n, all := |collected|, collected + Tagged(resource, Polled(previous, reply).0);
    forall i, j | 0 <= i < j < |all| && all[i].0 == all[j].0
      ensures all[i].1.at <= all[j].1.at
    {
      assert i < n ==> all[i] in collected;
    }
  }

  ghost predicate DistinctNames(resources: seq<string>) {
    forall i, j :: 0 <= i < j < |resources| ==> resources[i] != resources[j]
  }

  lemma LastIsNew(resources: seq<string>)
    requires DistinctNames(resources) && resources != []
    ensures var n := |resources| - 1; resources[n] !in resources[..n] && DistinctNames(resources[..n])
    ensures var n := |resources| - 1; forall r :: r in resources[..n] ==> r in resources
  {
  }

  /** What a sweep collects is of the resources it polls. */
  lemma {:induction false} SweptNames(cursors: Cursors, resources: seq<string>, replies: seq<Reply>)
    requires |replies| == |resources| && Swept(cursors, resources, replies).Some?
    ensures forall e :: e in Swept(cursors, resources, replies).value.1 ==> e.0 in resources
    decreases |resources|
  {
    if resources != [] {
      var n := |resources| - 1;
      SweptNames(cursors, resources[..n], replies[..n]);
      assert resources == resources[..n] + [resources[n]];
    }
  }

  lemma {:induction false} SweptInOrder(cursors: Cursors, resources: seq<string>, replies: seq<Reply>)
    requires |replies| == |resources| && DistinctNames(resources) && Swept(cursors, resources, replies).Some?
    ensures EachAscending(Swept(cursors, resources, replies).value.1)
    decreases |resources|
  {
    if resources != [] {
      var n := |resources| - 1;
      LastIsNew(resources);
      SweptInOrder(cursors, resources[..n], replies[..n]);
      SweptNames(cursors, resources[..n], replies[..n]);
      TaggedAscends(Swept(cursors, resources[..n], replies[..n]).value.1, resources[n],
                    Stored(cursors, resources[n]), replies[n]);
    }
  }

  /** A resource that is not polled keeps its cursor. */
  lemma {:induction false} SweptElsewhere(cursors: Cursors, resources: seq<string>, replies: seq<Reply>, r: string)
    requires |replies| == |resources| && Swept(cursors, resources, replies).Some? && r !in resources
    ensures Lookup(Swept(cursors, resources, replies).value.0, r) == Lookup(cursors, r)
    decreases |resources|
  {
    if resources != [] {
      SweptElsewhere(cursors, resources[..|resources| - 1], replies[..|resources| - 1], r);
    }
  }

  ghost predicate AllDated(replies: seq<Reply>) {
    forall k :: 0 <= k < |replies| && replies[k].Listed? ==> Dated(replies[k].items)
  }

  lemma {:induction false} SweptAdvances(cursors: Cursors, resources: seq<string>, replies: seq<Reply>)
    requires |replies| == |resources| && DistinctNames(resources) && AllDated(replies)
    requires Swept(cursors, resources, replies).Some?
    ensures var (sofar, collected) := Swept(cursors, resources, replies).value; Advances(cursors, sofar, collected)
    decreases |resources|
  {
    if resources != [] {
      var n := |resources| - 1;
      LastIsNew(resources);
      SweptAdvances(cursors, resources[..n], replies[..n]);
      SweptElsewhere(cursors, resources[..n], replies[..n], resources[n]);
      var (sofar, collected) := Swept(cursors, resources[..n], replies[..n]).value;
      PolledAdvances(cursors, sofar, collected, resources[n], replies[n]);
    }
  }

  lemma PolledAdvances(
      cursors: Cursors, sofar: Cursors, collected: seq<(string, Transition)>, resource: string, reply: Reply)
    requires Advances(cursors, sofar, collected) && reply.Listed? && Dated(reply.items)
    requires Lookup(sofar, resource) == Lookup(cursors, resource)
    ensures var (events, cursor) := Polled(Stored(cursors, resource), reply);
      Advances(cursors, if cursor > 0 then sofar[resource := cursor] else sofar, collected + Tagged(resource, events))
  {
    var previous := Stored(cursors, resource);
    var (events, cursor) := Polled(previous, reply);
    if previous.Some? {
      WatermarkBounds(reply.items, previous.value);
      forall k | 0 <= k < |events|
        ensures previous.value < events[k].at <= cursor
      {
        SameEvents(Fired(reply.items, previous.value));
        assert events[k] in events;
        FiredLiesBetween(reply.items, previous.value, events[k]);
      }
    }
  }

  /** Delivered earlier, and not past the cursor its resource has now. */
  predicate Behind(stored: Cursors, rounds: nat, d: Delivery) {
    d.round < rounds && d.resource in stored && d.transition.at <= stored[d.resource]
  }

  /** A later poll of the same resource delivered something strictly newer. */
  predicate Ordered(d: Delivery, e: Delivery) {
    d.resource == e.resource && d.round < e.round ==> d.transition.at < e.transition.at
  }

  /** Deliveries of one resource come in time order, within a poll and across polls. */
  ghost predicate LogAscending(log: seq<Delivery>) {
    forall i, j :: 0 <= i < j < |log| && log[i].resource == log[j].resource ==>
      log[i].transition.at <= log[j].transition.at
  }

  ghost predicate Inv(st: State) {
    && (forall d :: d in st.log ==> Behind(st.stored, st.rounds, d))
    && (forall d, e :: d in st.log && e in st.log ==> Ordered(d, e))
    && LogAscending(st.log)
  }

  /** What is handed on lies past the cursors stored before, and not past those stored after. */
  lemma PollAdvances(stored: Cursors, r: Round)
    requires RoundOk(r)
    ensures var (after, delivered) := PollStep(stored, r.resources, r.replies, r.write);
      Advances(stored, after, delivered) && EachAscending(delivered)
  {
    if Swept(stored, r.resources, r.replies).Some? {
      SweptAdvances(stored, r.resources, r.replies);
      SweptInOrder(stored, r.resources, r.replies);
    }
  }

  lemma InvStep(st: State, r: Round)
    requires Inv(st) && RoundOk(r)
    ensures Inv(Step(st, r))
  {
    PollAdvances(st.stored, r);
    var (stored, delivered) := PollStep(st.stored, r.resources, r.replies, r.write);
    var handed := Deliveries(st.rounds, delivered);
    forall d | d in handed
      ensures Behind(stored, st.rounds + 1, d) && d.round == st.rounds
      ensures d.resource in st.stored && st.stored[d.resource] < d.transition.at
    {
      var k :| 0 <= k < |handed| && d == handed[k];
      assert delivered[k] in delivered;
    }
    forall d | d in st.log ensures Behind(stored, st.rounds + 1, d) {
      assert Behind(st.stored, st.rounds, d);
    }
    forall d, e | d in st.log + handed && e in st.log + handed ensures Ordered(d, e) {
      if d in st.log && e in handed {
        assert Behind(st.stored, st.rounds, d);
      } else if d in handed && e in st.log {
        assert Behind(st.stored, st.rounds, e);
      }
    }
    LogGrows(st, handed, delivered);
  }

  lemma LogGrows(st: State, handed: seq<Delivery>, delivered: seq<(string, Transition)>)
    requires Inv(st) && handed == Deliveries(st.rounds, delivered) && EachAscending(delivered)
    requires forall d :: d in handed ==> d.resource in st.stored && st.stored[d.resource] < d.transition.at
    ensures LogAscending(st.log + handed)
  {
    var n, log := |st.log|, st.log + handed;
    forall i, j | 0 <= i < j < |log| && log[i].resource == log[j].resource
      ensures log[i].transition.at <= log[j].transition.at
    {
      if i < n <= j {
        assert log[i] in st.log && log[j] in handed;
        assert Behind(st.stored, st.rounds, log[i]);
      } else if n <= i {
        assert delivered[i - n].0 == delivered[j - n].0;
      }
    }
  }

  lemma {:induction false} InvRun(st: State, rounds: seq<Round>)
    requires Inv(st) && forall r :: r in rounds ==> Shaped(r) && RoundOk(r)
    ensures Inv(Run(st, rounds))
  {
    if rounds != [] {
      InvRun(st, rounds[..|rounds| - 1]);
      InvStep(Run(st, rounds[..|rounds| - 1]), rounds[|rounds| - 1]);
    }
  }

  /**
   Whatever fetches fail and whatever cursor writes fail or are reported as failed: an event handed
   on in one poll is not handed on in a later one, and each resource's events come in time order
   across polls.
   */
  lemma NeverRedelivered(cursors: Cursors, rounds: seq<Round>, d: Delivery, e: Delivery)
    requires forall r :: r in rounds ==> Shaped(r) && RoundOk(r)
    requires d in Run(State(cursors, 0, []), rounds).log && e in Run(State(cursors, 0, []), rounds).log
    requires d.resource == e.resource && d.round < e.round
    ensures d.transition.at < e.transition.at && d.transition != e.transition
  {
    InvRun(State(cursors, 0, []), rounds);
    assert Ordered(d, e);
  }

  /** ... and each resource's events reach the chat in time order, over the whole history. */
  lemma DeliveredInTimeOrder(cursors: Cursors, rounds: seq<Round>, i: nat, j: nat)
    requires forall r :: r in rounds ==> Shaped(r) && RoundOk(r)
    requires var log := Run(State(cursors, 0, []), rounds).log;
      i < j < |log| && log[i].resource == log[j].resource
    ensures var log := Run(State(cursors, 0, []), rounds).log; log[i].transition.at <= log[j].transition.at
  {
    InvRun(State(cursors, 0, []), rounds);
  }

  // ---------------------------------------------------------------- exactly once

  /** What a round means for one resource: its own reply when the whole sweep succeeds, and the cursor write. */
  datatype Attempt = Attempt(reply: Reply, write: Write)

  /** The reply of one resource; none when the round does not poll it. */
  function ReplyFor(resources: seq<string>, replies: seq<Reply>, resource: string): Reply
    requires |replies| == |resources|
  {
    if resources == [] then Failed
    else
      var n := |resources| - 1;
      if resources[n] == resource then replies[n] else ReplyFor(resources[..n], replies[..n], resource)
  }

  predicate AllListed(replies: seq<Reply>) {
    forall k :: 0 <= k < |replies| ==> replies[k].Listed?
  }

  /** One failed fetch fails the round for every resource. */
  function AttemptOf(r: Round, resource: string): Attempt
    requires Shaped(r)
  {
    Attempt(if AllListed(r.replies) then ReplyFor(r.resources, r.replies, resource) else Failed, r.write)
  }

  function Attempts(rounds: seq<Round>, resource: string): (polls: seq<Attempt>)
    requires forall r :: r in rounds ==> Shaped(r)
    ensures |polls| == |rounds|
  {
    seq(|rounds|, k requires 0 <= k < |rounds| => assert rounds[k] in rounds; AttemptOf(rounds[k], resource))
  }

  ghost predicate PollsOk(polls: seq<Attempt>) {
    forall k :: 0 <= k < |polls| ==>
      (polls[k].reply.Listed? ==> Dated(polls[k].reply.items)) && (polls[k].write.reported ==> polls[k].write.landed)
  }

  /** The stored cursor of a resource; 0 when there is none. */
  function CursorOf(cursors: Cursors, resource: string): nat {
    if resource in cursors then cursors[resource] else 0
  }

  function NextCursor(cursor: nat, reply: Reply): nat {
    if reply.Failed? then cursor else if cursor > 0 then Watermark(reply.items, cursor) else reply.serverNow
  }

  /** What a listing has for a cursor, in time order; a baseline has nothing. */
  function NewFor(cursor: nat, reply: Reply): seq<Transition> {
    if cursor > 0 && reply.Listed? then InTimeOrder(Fired(reply.items, cursor)) else []
  }

  /** The sweep succeeds and the cursor write takes effect. */
  predicate Moves(poll: Attempt) {
    poll.reply.Listed? && poll.write.landed
  }

  predicate Lists(poll: Attempt, t: Transition) {
    poll.reply.Listed? && t in Reported(poll.reply.items)
  }

  /** The cursor poll number `k` starts from. */
  function CursorAt(cursor: nat, polls: seq<Attempt>, k: nat): nat
    requires k <= |polls|
  {
    if k == 0 then cursor
    else
      var before := CursorAt(cursor, polls, k - 1);
      if Moves(polls[k - 1]) then NextCursor(before, polls[k - 1].reply) else before
  }

  /** What poll number `k` hands on. */
  function HandedBy(cursor: nat, polls: seq<Attempt>, k: nat): seq<Transition>
    requires k < |polls|
  {
    if polls[k].write.reported then NewFor(CursorAt(cursor, polls, k), polls[k].reply) else []
  }

  /** How often these polls of one resource hand on `t` in round `round`. */
  function TimesHanded(cursor: nat, polls: seq<Attempt>, round: nat, t: Transition): nat {
    if round < |polls| then multiset(HandedBy(cursor, polls, round))[t] else 0
  }

  lemma {:induction false} CursorsOnlyAdvance(cursor: nat, polls: seq<Attempt>, j: nat, k: nat)
    requires j <= k <= |polls|
    ensures CursorAt(cursor, polls, j) <= CursorAt(cursor, polls, k)
  {
    if j < k {
      CursorsOnlyAdvance(cursor, polls, j, k - 1);
      if Moves(polls[k - 1]) {
        WatermarkBounds(polls[k - 1].reply.items, CursorAt(cursor, polls, k - 1));
      }
    }
  }

  lemma {:induction false} SameCursorAt(cursor: nat, polls: seq<Attempt>, n: nat, k: nat)
    requires k <= n <= |polls|
    ensures CursorAt(cursor, polls[..n], k) == CursorAt(cursor, polls, k)
  {
    if k > 0 {
      SameCursorAt(cursor, polls, n, k - 1);
    }
  }

  // ---------------------------------------------------------------- one resource of a sweep

  lemma {:induction false} TaggedCount(resource: string, events: seq<Transition>, e: (string, Transition))
    ensures multiset(Tagged(resource, events))[e] == if e.0 == resource then multiset(events)[e.1] else 0
  {
    if events != [] {
      var n := |events| - 1;
      TaggedCount(resource, events[..n], e);
      assert events == events[..n] + [events[n]];
      assert Tagged(resource, events) == Tagged(resource, events[..n]) + [(resource, events[n])];
    }
  }

  lemma {:induction false} NotPolled(resources: seq<string>, replies: seq<Reply>, resource: string)
    requires |replies| == |resources| && resource !in resources
    ensures ReplyFor(resources, replies, resource) == Failed
  {
    if resources != [] {
      NotPolled(resources[..|resources| - 1], replies[..|resources| - 1], resource);
    }
  }

  lemma {:induction false} ReplyForIsListed(resources: seq<string>, replies: seq<Reply>, resource: string)
    requires |replies| == |resources|
    ensures ReplyFor(resources, replies, resource) == Failed || ReplyFor(resources, replies, resource) in replies
  {
    if resources != [] {
      ReplyForIsListed(resources[..|resources| - 1], replies[..|resources| - 1], resource);
    }
  }

  /** `Polled`, read as the next cursor and the new events. */
  lemma PolledIs(cursors: Cursors, resource: string, reply: Reply)
    requires reply.Listed?
    ensures Polled(Stored(cursors, resource), reply)
      == (NewFor(CursorOf(cursors, resource), reply), NextCursor(CursorOf(cursors, resource), reply))
  {
  }

  /** What a sweep that gets through does for one resource is what its own reply says. */
  ghost predicate SweepsOne(
      cursors: Cursors, swept: (Cursors, seq<(string, Transition)>), resource: string, t: Transition, reply: Reply)
  {
    && CursorOf(swept.0, resource) == NextCursor(CursorOf(cursors, resource), reply)
    && multiset(swept.1)[(resource, t)] == multiset(NewFor(CursorOf(cursors, resource), reply))[t]
  }

  lemma {:induction false} SweptAllListed(cursors: Cursors, resources: seq<string>, replies: seq<Reply>)
    requires |replies| == |resources|
    ensures Swept(cursors, resources, replies).Some? <==> AllListed(replies)
    decreases |resources|
  {
    if resources != [] {
      SweptAllListed(cursors, resources[..|resources| - 1], replies[..|resources| - 1]);
    }
  }

  lemma {:induction false} SweptOne(cursors: Cursors, resources: seq<string>, replies: seq<Reply>, resource: string,
                                    t: Transition)
    requires |replies| == |resources|
    requires forall i, j :: 0 <= i < j < |resources| ==> resources[i] != resources[j]
    requires Swept(cursors, resources, replies).Some?
    ensures SweepsOne(cursors, Swept(cursors, resources, replies).value, resource, t,
                      ReplyFor(resources, replies, resource))
    decreases |resources|
  {
    if resources != [] {
      var n := |resources| - 1;
      SweptOne(cursors, resources[..n], replies[..n], resource, t);
      var sofar := Swept(cursors, resources[..n], replies[..n]).value;
      if resources[n] == resource {
        NotPolled(resources[..n], replies[..n], resource);
      }
      SweptOneMore(cursors, sofar, resources[n], replies[n], resource, t,
                   ReplyFor(resources[..n], replies[..n], resource));
    }
  }

  lemma SweptOneMore(cursors: Cursors, sofar: (Cursors, seq<(string, Transition)>), next: string, reply: Reply,
                     resource: string, t: Transition, own: Reply)
    requires reply.Listed? && SweepsOne(cursors, sofar, resource, t, own) && (next == resource ==> own == Failed)
    ensures var (events, cursor) := Polled(Stored(cursors, next), reply);
      SweepsOne(cursors, (if cursor > 0 then sofar.0[next := cursor] else sofar.0, sofar.1 + Tagged(next, events)),
                resource, t, if next == resource then reply else own)
  {
    PolledIs(cursors, next, reply);
    TaggedCount(next, Polled(Stored(cursors, next), reply).0, (resource, t));
    if next == resource && CursorOf(cursors, resource) > 0 {
      WatermarkBounds(reply.items, CursorOf(cursors, resource));
    }
  }

  /** A listing that leaves the cursor where it is has nothing new. */
  lemma UnmovedIsSilent(cursor: nat, reply: Reply)
    requires reply.Listed? ==> Dated(reply.items)
    requires NextCursor(cursor, reply) == cursor
    ensures NewFor(cursor, reply) == []
  {
    if cursor > 0 && reply.Listed? {
      var fired := Fired(reply.items, cursor);
      if fired != [] {
        FiredLiesBetween(reply.items, cursor, fired[0]);
      }
    }
  }

  /** One round, read for one resource: whatever the other resources answer, only the attempt counts. */
  lemma RoundOne(stored: Cursors, r: Round, resource: string, t: Transition)
    requires Shaped(r) && RoundOk(r)
    ensures var (after, delivered) := PollStep(stored, r.resources, r.replies, r.write);
      var cursor, polls := CursorOf(stored, resource), [AttemptOf(r, resource)];
      && CursorOf(after, resource) == CursorAt(cursor, polls, 1)
      && multiset(delivered)[(resource, t)] == multiset(HandedBy(cursor, polls, 0))[t]
  {
    var cursor, a := CursorOf(stored, resource), AttemptOf(r, resource);
    assert CursorAt(cursor, [a], 0) == cursor && [a][0] == a;
    SweptAllListed(stored, r.resources, r.replies);
    if AllListed(r.replies) {
      SweptOne(stored, r.resources, r.replies, resource, t);
      var swept := Swept(stored, r.resources, r.replies).value;
      if swept.0 == stored {
        ReplyForIsListed(r.resources, r.replies, resource);
        UnmovedIsSilent(cursor, a.reply);
      }
    }
  }

  lemma AttemptIsOk(r: Round, resource: string)
    requires Shaped(r) && RoundOk(r)
    ensures PollsOk([AttemptOf(r, resource)])
  {
    ReplyForIsListed(r.resources, r.replies, resource);
  }

  lemma AttemptsOk(rounds: seq<Round>, resource: string)
    requires forall r :: r in rounds ==> Shaped(r) && RoundOk(r)
    ensures PollsOk(Attempts(rounds, resource))
  {
    var polls := Attempts(rounds, resource);
    forall k | 0 <= k < |polls|
      ensures polls[k].reply.Listed? ==> Dated(polls[k].reply.items)
      ensures polls[k].write.reported ==> polls[k].write.landed
    {
      assert rounds[k] in rounds;
      AttemptIsOk(rounds[k], resource);
      assert [AttemptOf(rounds[k], resource)][0] == polls[k];
    }
  }

  // ---------------------------------------------------------------- over whole histories

  lemma {:induction false} DeliveriesCount(round: nat, events: seq<(string, Transition)>, d: Delivery)
    ensures multiset(Deliveries(round, events))[d]
      == if d.round == round then multiset(events)[(d.resource, d.transition)] else 0
  {
    if events != [] {
      var n := |events| - 1;
      DeliveriesCount(round, events[..n], d);
      assert events == events[..n] + [events[n]];
      assert Deliveries(round, events) == Deliveries(round, events[..n]) + [Delivery(round, events[n].0, events[n].1)];
    }
  }

  lemma LastAttempt(rounds: seq<Round>, resource: string)
    requires rounds != [] && forall r :: r in rounds ==> Shaped(r)
    ensures var n := |rounds| - 1;
      && Attempts(rounds, resource)[..n] == Attempts(rounds[..n], resource)
      && rounds[n] in rounds && Attempts(rounds, resource)[n] == AttemptOf(rounds[n], resource)
  {
    assert rounds[|rounds| - 1] in rounds;
  }

  /** One poll more: the cursor moves as it alone says, and it alone hands on in its round. */
  lemma OneMorePoll(cursor: nat, polls: seq<Attempt>, round: nat, t: Transition)
    requires polls != []
    ensures var n := |polls| - 1;
      var before, last := CursorAt(cursor, polls[..n], n), [polls[n]];
      && CursorAt(cursor, polls, n + 1) == CursorAt(before, last, 1)
      && TimesHanded(cursor, polls, round, t)
         == TimesHanded(cursor, polls[..n], round, t)
            + (if round == n then multiset(HandedBy(before, last, 0))[t] else 0)
  {
    var n := |polls| - 1;
    SameCursorAt(cursor, polls, n, n);
    LastAlone(cursor, polls);
    if round < n {
      SameCursorAt(cursor, polls, n, round);
    }
  }

  /** The last poll, taken alone from the cursor it starts from. */
  lemma LastAlone(cursor: nat, polls: seq<Attempt>)
    requires polls != []
    ensures var n := |polls| - 1;
      var before, last := CursorAt(cursor, polls, n), [polls[n]];
      CursorAt(cursor, polls, n + 1) == CursorAt(before, last, 1)
      && HandedBy(cursor, polls, n) == HandedBy(before, last, 0)
  {
    var n := |polls| - 1;
    assert CursorAt(CursorAt(cursor, polls, n), [polls[n]], 0) == CursorAt(cursor, polls, n);
  }

  lemma StepOne(st: State, r: Round, resource: string, d: Delivery)
    requires Shaped(r) && RoundOk(r) && d.resource == resource
    ensures var after, cursor, polls := Step(st, r), CursorOf(st.stored, resource), [AttemptOf(r, resource)];
      && CursorOf(after.stored, resource) == CursorAt(cursor, polls, 1) && after.rounds == st.rounds + 1
      && multiset(after.log)[d] == multiset(st.log)[d]
         + (if d.round == st.rounds then multiset(HandedBy(cursor, polls, 0))[d.transition] else 0)
  {
    RoundOne(st.stored, r, resource, d.transition);
    DeliveriesCount(st.rounds, PollStep(st.stored, r.resources, r.replies, r.write).1, d);
  }

  /**
   Over any history of rounds, each sweeping any resources of which any may fail: a resource's
   stored cursor and deliveries are, in number too, those of its own attempts.
   */
  lemma {:induction false} PollsFollowCursor(cursors: Cursors, rounds: seq<Round>, d: Delivery)
    requires forall r :: r in rounds ==> Shaped(r) && RoundOk(r)
    ensures var st := Run(State(cursors, 0, []), rounds);
      var cursor, polls := CursorOf(cursors, d.resource), Attempts(rounds, d.resource);
      && st.rounds == |rounds| && CursorOf(st.stored, d.resource) == CursorAt(cursor, polls, |polls|)
      && multiset(st.log)[d] == TimesHanded(cursor, polls, d.round, d.transition)
    decreases |rounds|
  {
    if rounds != [] {
      var n := |rounds| - 1;
      PollsFollowCursor(cursors, rounds[..n], d);
      LastAttempt(rounds, d.resource);
      StepOne(Run(State(cursors, 0, []), rounds[..n]), rounds[n], d.resource, d);
      OneMorePoll(CursorOf(cursors, d.resource), Attempts(rounds, d.resource), d.round, d.transition);
    }
  }

  lemma {:induction false} ReportedPresent(items: seq<Item>, t: Transition)
    ensures t in Reported(items) <==> Present(items, t)
  {
    if items != [] {
      var front := items[..|items| - 1];
      ReportedPresent(front, t);
      if Present(items, t) {
        var i :| 0 <= i < |items| && t in items[i].transitions;
        assert i < |front| ==> t in front[i].transitions;
      }
      if Present(front, t) {
        var i :| 0 <= i < |front| && t in front[i].transitions;
        assert t in items[i].transitions;
      }
    }
  }

  /** Poll `k` has a cursor to start from, lists `t` and moves the cursor. */
  predicate Passes(cursor: nat, polls: seq<Attempt>, k: nat, t: Transition)
    requires k < |polls|
  {
    CursorAt(cursor, polls, k) > 0 && Moves(polls[k]) && Lists(polls[k], t)
  }

  /** The first poll that does; sweeps and writes may fail before, and the first may be a baseline. */
  ghost predicate FirstPasses(cursor: nat, polls: seq<Attempt>, k: nat, t: Transition)
    requires k < |polls|
  {
    Passes(cursor, polls, k, t) && forall j :: 0 <= j < k ==> !Passes(cursor, polls, j, t)
  }

  lemma HandedCount(cursor: nat, polls: seq<Attempt>, j: nat, t: Transition)
    requires j < |polls|
    ensures multiset(HandedBy(cursor, polls, j))[t]
      == if 0 < CursorAt(cursor, polls, j) < t.at && polls[j].reply.Listed? && polls[j].write.reported
         then multiset(Reported(polls[j].reply.items))[t] else 0
  {
    if CursorAt(cursor, polls, j) > 0 && polls[j].reply.Listed? && polls[j].write.reported {
      OrderKeeps(Fired(polls[j].reply.items, CursorAt(cursor, polls, j)));
      FiredCount(polls[j].reply.items, CursorAt(cursor, polls, j), t);
    }
  }

  /** A poll that does not pass `t` delivers it zero times. */
  lemma UnpassedHandsNothing(cursor: nat, polls: seq<Attempt>, j: nat, t: Transition)
    requires PollsOk(polls) && j < |polls| && !Passes(cursor, polls, j, t)
    ensures multiset(HandedBy(cursor, polls, j))[t] == 0
  {
    HandedCount(cursor, polls, j, t);
  }

  lemma HandedOnlyBy(cursor: nat, polls: seq<Attempt>, k: nat, t: Transition, j: nat)
    requires PollsOk(polls) && k < |polls| && j < |polls| && FirstPasses(cursor, polls, k, t)
    ensures multiset(HandedBy(cursor, polls, j))[t]
      == if j == k && polls[k].write.reported && t.at > CursorAt(cursor, polls, k)
         then multiset(Reported(polls[k].reply.items))[t] else 0
  {
    if j < k {
      UnpassedHandsNothing(cursor, polls, j, t);
    } else {
      HandedCount(cursor, polls, j, t);
      if k < j {
        PastCursor(cursor, polls, k, t, j);
      }
    }
  }

  /** Once a poll passes `t`, every later cursor is past it. */
  lemma PastCursor(cursor: nat, polls: seq<Attempt>, k: nat, t: Transition, j: nat)
    requires PollsOk(polls) && k < j < |polls| && Passes(cursor, polls, k, t)
    ensures t.at <= CursorAt(cursor, polls, j)
  {
    ReportedPresent(polls[k].reply.items, t);
    var i :| 0 <= i < |polls[k].reply.items| && t in polls[k].reply.items[i].transitions;
    WatermarkBounds(polls[k].reply.items, CursorAt(cursor, polls, k));
    CursorsOnlyAdvance(cursor, polls, k + 1, j);
  }

  /** How often each round of the history delivers `t` of `resource`. */
  ghost function TimesDelivered(cursors: Cursors, rounds: seq<Round>, resource: string, t: Transition, round: nat): nat
    requires forall r :: r in rounds ==> Shaped(r)
  {
    multiset(Run(State(cursors, 0, []), rounds).log)[Delivery(round, resource, t)]
  }

  /**
   Over any history of sweeps, of any resources, with failed fetches and failed cursor writes: a
   transition that a listing reports once is delivered once, in the first round that has a cursor
   for its resource, lists it and moves the cursor, precisely when it is newer than that cursor and
   the write is reported done; in every other round, and otherwise, never.
   */
  lemma ExactlyOnceIff(cursors: Cursors, rounds: seq<Round>, resource: string, k: nat, t: Transition)
    requires forall r :: r in rounds ==> Shaped(r) && RoundOk(r)
    requires var cursor, polls := CursorOf(cursors, resource), Attempts(rounds, resource);
      k < |polls| && FirstPasses(cursor, polls, k, t) && multiset(Reported(polls[k].reply.items))[t] == 1
    ensures var cursor, polls := CursorOf(cursors, resource), Attempts(rounds, resource);
      forall round: nat :: TimesDelivered(cursors, rounds, resource, t, round)
        == if round == k && polls[k].write.reported && t.at > CursorAt(cursor, polls, k) then 1 else 0
  {
    var cursor, polls := CursorOf(cursors, resource), Attempts(rounds, resource);
    AttemptsOk(rounds, resource);
    forall round: nat
      ensures TimesDelivered(cursors, rounds, resource, t, round)
        == if round == k && polls[k].write.reported && t.at > CursorAt(cursor, polls, k) then 1 else 0
    {
      PollsFollowCursor(cursors, rounds, Delivery(round, resource, t));
      if round < |polls| {
        HandedOnlyBy(cursor, polls, k, t, round);
      }
    }
  }

  /** And the rest: a transition that no round passes is delivered in none. */
  lemma NeverPassedNeverDelivered(cursors: Cursors, rounds: seq<Round>, resource: string, t: Transition, round: nat)
    requires forall r :: r in rounds ==> Shaped(r) && RoundOk(r)
    requires var cursor, polls := CursorOf(cursors, resource), Attempts(rounds, resource);
      forall k :: 0 <= k < |polls| ==> !Passes(cursor, polls, k, t)
    ensures TimesDelivered(cursors, rounds, resource, t, round) == 0
  {
    var cursor, polls := CursorOf(cursors, resource), Attempts(rounds, resource);
    AttemptsOk(rounds, resource);
    PollsFollowCursor(cursors, rounds, Delivery(round, resource, t));
    if round < |polls| {
      UnpassedHandsNothing(cursor, polls, round, t);
    }
  }

  /** The listing made at a moment shows what happened after the cursor up to that moment, once, and nothing later. */
  ghost predicate CompleteAt(happened: set<Transition>, cursor: nat, moment: nat, items: seq<Item>) {
    && (forall i :: 0 <= i < |items| ==> items[i].watermark <= moment)
    && (forall t :: t in happened && cursor < t.at <= moment ==> multiset(Reported(items))[t] == 1)
  }

  /** Poll number `j` is made at moment `j + 1`: a baseline stamps no later time, and other listings are complete. */
  ghost predicate CompletePolls(happened: set<Transition>, cursor: nat, polls: seq<Attempt>, moments: seq<nat>) {
    && |moments| == |polls| + 1 && cursor <= moments[0]
    && (forall i, j :: 0 <= i <= j < |moments| ==> moments[i] <= moments[j])
    && forall j :: 0 <= j < |polls| && polls[j].reply.Listed? ==>
         if CursorAt(cursor, polls, j) == 0 then polls[j].reply.serverNow <= moments[j + 1]
         else CompleteAt(happened, CursorAt(cursor, polls, j), moments[j + 1], polls[j].reply.items)
  }

  lemma {:induction false} CursorBehindMoment(
      happened: set<Transition>, cursor: nat, polls: seq<Attempt>, moments: seq<nat>, k: nat)
    requires CompletePolls(happened, cursor, polls, moments) && k <= |polls|
    ensures CursorAt(cursor, polls, k) <= moments[k]
  {
    if k > 0 {
      CursorBehindMoment(happened, cursor, polls, moments, k - 1);
      var before := CursorAt(cursor, polls, k - 1);
      if Moves(polls[k - 1]) && before > 0 {
        WatermarkAtMost(polls[k - 1].reply.items, before, moments[k]);
      }
    }
  }

  lemma {:induction false} WatermarkAtMost(items: seq<Item>, watermark: nat, bound: nat)
    requires watermark <= bound && forall i :: 0 <= i < |items| ==> items[i].watermark <= bound
    ensures Watermark(items, watermark) <= bound
  {
    if items != [] {
      WatermarkAtMost(items[..|items| - 1], watermark, bound);
    }
  }

  lemma {:induction false} UnmovedCursor(cursor: nat, polls: seq<Attempt>, k: nat, n: nat)
    requires k <= n <= |polls| && forall j :: k <= j < n ==> !Moves(polls[j])
    ensures CursorAt(cursor, polls, n) == CursorAt(cursor, polls, k)
    decreases n
  {
    if k < n {
      UnmovedCursor(cursor, polls, k, n - 1);
    }
  }

  lemma NotYetListed(
      happened: set<Transition>, cursor: nat, polls: seq<Attempt>, moments: seq<nat>, j: nat, t: Transition)
    requires PollsOk(polls) && CompletePolls(happened, cursor, polls, moments)
    requires j < |polls| && moments[j + 1] < t.at
    ensures !Passes(cursor, polls, j, t)
  {
    if polls[j].reply.Listed? && CursorAt(cursor, polls, j) > 0 {
      assert CompleteAt(happened, CursorAt(cursor, polls, j), moments[j + 1], polls[j].reply.items);
      ReportedPresent(polls[j].reply.items, t);
    }
  }

  /** With complete listings, the first poll from `k` on to move the cursor is the first to pass what is new to `k`. */
  lemma FirstToPass(happened: set<Transition>, cursor: nat, polls: seq<Attempt>, moments: seq<nat>,
                    k: nat, n: nat, t: Transition)
    requires PollsOk(polls) && CompletePolls(happened, cursor, polls, moments)
    requires k <= n < |polls| && (forall j :: k <= j < n ==> !Moves(polls[j])) && Moves(polls[n])
    requires CursorAt(cursor, polls, k) > 0 && t in happened && moments[k] < t.at <= moments[k + 1]
    ensures FirstPasses(cursor, polls, n, t) && multiset(Reported(polls[n].reply.items))[t] == 1
    ensures t.at > CursorAt(cursor, polls, n)
  {
    CursorBehindMoment(happened, cursor, polls, moments, k);
    UnmovedCursor(cursor, polls, k, n);
    var items := polls[n].reply.items;
    assert CompleteAt(happened, CursorAt(cursor, polls, n), moments[n + 1], items);
    assert multiset(Reported(items))[t] == 1;
    assert t in multiset(Reported(items));
    forall j | 0 <= j < n ensures !Passes(cursor, polls, j, t) {
      if j < k {
        NotYetListed(happened, cursor, polls, moments, j, t);
      }
    }
  }

  /**
   With complete listings of a resource, over any history of sweeps: what happens after one poll that
   had a cursor and up to the next, number `k`, is delivered exactly once, in the first round from
   `k` on that moves the cursor, if its write is reported done.
   */
  lemma CompleteListingsDeliverOnce(cursors: Cursors, rounds: seq<Round>, resource: string, happened: set<Transition>,
                                    moments: seq<nat>, k: nat, n: nat, t: Transition)
    requires forall r :: r in rounds ==> Shaped(r) && RoundOk(r)
    requires var cursor, polls := CursorOf(cursors, resource), Attempts(rounds, resource);
      && CompletePolls(happened, cursor, polls, moments)
      && k <= n < |polls| && (forall j :: k <= j < n ==> !Moves(polls[j])) && Moves(polls[n])
      && CursorAt(cursor, polls, k) > 0 && t in happened && moments[k] < t.at <= moments[k + 1]
    ensures forall round: nat ::
      TimesDelivered(cursors, rounds, resource, t, round)
      == if round == n && Attempts(rounds, resource)[n].write.reported then 1 else 0
  {
    AttemptsOk(rounds, resource);
    FirstToPass(happened, CursorOf(cursors, resource), Attempts(rounds, resource), moments, k, n, t);
    ExactlyOnceIff(cursors, rounds, resource, n, t);
  }

  /** A successful round whose one listing reports just `t`. */
  function Sole(resource: string, t: Transition): Round {
    Round([resource], [Listed([Item(t.at, [t])], 0)], Write(true, true))
  }

  lemma SoleListing(resource: string, t: Transition, watermark: nat)
    ensures var items := [Item(t.at, [t])];
      && Shaped(Sole(resource, t)) && RoundOk(Sole(resource, t))
      && AttemptOf(Sole(resource, t), resource) == Attempt(Listed(items, 0), Write(true, true))
      && Reported(items) == [t] && Watermark(items, watermark) == Max(watermark, t.at)
  {
    assert [Item(t.at, [t])][..0] == [];
  }

  lemma TwoSolePolls(resource: string, cursor: nat, early: Transition, late: Transition)
    requires early != late && 0 < cursor < early.at
    ensures var rounds := [Sole(resource, early), Sole(resource, late)];
      && (forall r :: r in rounds ==> Shaped(r) && RoundOk(r))
      && var polls := Attempts(rounds, resource);
      && FirstPasses(cursor, polls, 0, early) && FirstPasses(cursor, polls, 1, late)
      && Reported(polls[0].reply.items) == [early] && Reported(polls[1].reply.items) == [late]
      && CursorAt(cursor, polls, 0) == cursor && CursorAt(cursor, polls, 1) == early.at
  {
    SoleListing(resource, early, cursor);
    SoleListing(resource, late, cursor);
    var polls := Attempts([Sole(resource, early), Sole(resource, late)], resource);
    assert CursorAt(cursor, polls, 0) == cursor;
    assert CursorAt(cursor, polls, 1) == early.at;
  }

  /** Timestamps have a grain: a second transition of the same second, listed one poll later, is never delivered. */
  lemma SameSecondIsLost(resource: string, cursor: nat, early: Transition, late: Transition)
    requires 0 < cursor < early.at == late.at && early != late
    ensures var rounds := [Sole(resource, early), Sole(resource, late)];
      && (forall r :: r in rounds ==> Shaped(r))
      && TimesDelivered(map[resource := cursor], rounds, resource, early, 0) == 1
      && forall round: nat :: TimesDelivered(map[resource := cursor], rounds, resource, late, round) == 0
  {
    var rounds := [Sole(resource, early), Sole(resource, late)];
    TwoSolePolls(resource, cursor, early, late);
    ExactlyOnceIff(map[resource := cursor], rounds, resource, 0, early);
    ExactlyOnceIff(map[resource := cursor], rounds, resource, 1, late);
  }
}
