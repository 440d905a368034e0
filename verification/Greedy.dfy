/**
 Splitting a sequence into contiguous pieces under a weight budget by filling each piece as far as
 it goes.  The transcript chunker and the IRC byte splitter are both this splitter.
 */
module Greedy {

  function Weight<T>(w: T -> nat, items: seq<T>): nat {
    if items == [] then 0 else Weight(w, items[..|items| - 1]) + w(items[|items| - 1])
  }

  function Flatten<T>(pieces: seq<seq<T>>): seq<T> {
    if pieces == [] then [] else Flatten(pieces[..|pieces| - 1]) + pieces[|pieces| - 1]
  }

  /** A piece is acceptable when it is within budget, or is a single item. */
  predicate Fits<T>(w: T -> nat, budget: int, piece: seq<T>) {
    piece != [] && (|piece| == 1 || Weight(w, piece) <= budget)
  }

  /** The pieces closed so far, with the one still open last: what the greedy loop holds after `items`. */
  function Split<T>(w: T -> nat, budget: int, items: seq<T>): seq<seq<T>> {
    if items == [] then []
    else
      var item := items[|items| - 1];
      var done := Split(w, budget, items[..|items| - 1]);
      if done == [] then [[item]]
      else
        var open := done[|done| - 1];
        if Weight(w, open) + w(item) > budget then done + [[item]]
        else done[..|done| - 1] + [open + [item]]
  }

  /** After the first `n` items: these pieces are closed, and this one is open. */
  ghost predicate Filled<T>(w: T -> nat, budget: int, items: seq<T>, n: nat, closed: seq<seq<T>>, open: seq<T>)
    requires n <= |items|
  {
    if n == 0 then closed == [] && open == []
    else open != [] && Split(w, budget, items[..n]) == closed + [open]
  }

  /** The next item opens a new piece: the open one has no room, or there is none. */
  lemma OpensPiece<T>(w: T -> nat, budget: int, items: seq<T>, n: nat, closed: seq<seq<T>>, open: seq<T>)
    requires n < |items| && Filled(w, budget, items, n, closed, open)
    requires n > 0 ==> Weight(w, open) + w(items[n]) > budget
    ensures Filled(w, budget, items, n + 1, if n > 0 then closed + [open] else [], [items[n]])
  {
    assert items[..n + 1][..n] == items[..n];
    if n > 0 {
      var done := closed + [open];
      assert done[|done| - 1] == open;
      assert Split(w, budget, items[..n + 1]) == done + [[items[n]]];
    } else {
      assert Split(w, budget, items[..0]) == [];
      assert Split(w, budget, items[..1]) == [[items[0]]] == [] + [[items[0]]];
    }
  }

  /** The next item joins the open piece. */
  lemma JoinsPiece<T>(w: T -> nat, budget: int, items: seq<T>, n: nat, closed: seq<seq<T>>, open: seq<T>)
    requires 0 < n < |items| && Filled(w, budget, items, n, closed, open)
    requires Weight(w, open) + w(items[n]) <= budget
    ensures Filled(w, budget, items, n + 1, closed, open + [items[n]])
  {
    assert items[..n + 1][..n] == items[..n];
    assert (closed + [open])[..|closed|] == closed;
  }

  lemma FilledAll<T>(w: T -> nat, budget: int, items: seq<T>, closed: seq<seq<T>>, open: seq<T>)
    requires Filled(w, budget, items, |items|, closed, open)
    ensures Split(w, budget, items) == if items == [] then [] else closed + [open]
  {
    assert items[..|items|] == items;
  }

  /** A cut of `items` into acceptable contiguous pieces. */
  ghost predicate IsCut<T>(w: T -> nat, budget: int, pieces: seq<seq<T>>, items: seq<T>) {
    Flatten(pieces) == items && forall k :: 0 <= k < |pieces| ==> Fits(w, budget, pieces[k])
  }

  lemma WeightAppend<T>(w: T -> nat, items: seq<T>, item: T)
    ensures Weight(w, items + [item]) == Weight(w, items) + w(item)
  {
    assert (items + [item])[..|items|] == items;
  }

  lemma FlattenAppend<T>(pieces: seq<seq<T>>, piece: seq<T>)
    ensures Flatten(pieces + [piece]) == Flatten(pieces) + piece
  {
    assert (pieces + [piece])[..|pieces|] == pieces;
  }

  /** A cut with one more acceptable piece. */
  lemma CutAppend<T>(w: T -> nat, budget: int, pieces: seq<seq<T>>, items: seq<T>, piece: seq<T>)
    requires IsCut(w, budget, pieces, items) && Fits(w, budget, piece)
    ensures IsCut(w, budget, pieces + [piece], items + piece)
  {
    FlattenAppend(pieces, piece);
  }

  /** A cut whose last piece takes one more item that fits. */
  lemma CutJoin<T>(w: T -> nat, budget: int, pieces: seq<seq<T>>, open: seq<T>, items: seq<T>, item: T)
    requires IsCut(w, budget, pieces + [open], items) && Weight(w, open) + w(item) <= budget
    ensures IsCut(w, budget, pieces + [open + [item]], items + [item])
  {
    FlattenAppend(pieces, open);
    FlattenAppend(pieces, open + [item]);
    WeightAppend(w, open, item);
    assert Flatten(pieces) + (open + [item]) == items + [item];
    forall k | 0 <= k < |pieces| ensures Fits(w, budget, pieces[k]) {
      assert (pieces + [open])[k] == pieces[k];
    }
  }

  /** Lossless and bounded: the greedy pieces are a cut of the items, in order, none empty. */
  lemma {:induction false} SplitIsCut<T>(w: T -> nat, budget: int, items: seq<T>)
    ensures IsCut(w, budget, Split(w, budget, items), items)
    ensures items == [] <==> Split(w, budget, items) == []
  {
    if items != [] {
      var front, item := items[..|items| - 1], items[|items| - 1];
      SplitIsCut(w, budget, front);
      var done := Split(w, budget, front);
      assert items == front + [item];
      if done == [] {
        CutAppend(w, budget, [], [], [item]);
        assert [] + [[item]] == [[item]] && [] + [item] == front + [item];
      } else {
        var closed, open := done[..|done| - 1], done[|done| - 1];
        assert done == closed + [open];
        if Weight(w, open) + w(item) > budget {
          CutAppend(w, budget, done, front, [item]);
        } else {
          CutJoin(w, budget, closed, open, front, item);
        }
      }
    }
  }

  // ---------------------------------------------------------------- staying ahead

  lemma {:induction false} WeightConcat<T>(w: T -> nat, a: seq<T>, b: seq<T>)
    ensures Weight(w, a + b) == Weight(w, a) + Weight(w, b)
  {
    if b == [] {
      assert a + b == a;
    } else {
      assert (a + b)[..|a + b| - 1] == a + b[..|b| - 1];
      WeightConcat(w, a, b[..|b| - 1]);
    }
  }

  /** The last piece of a cut, taken away with its items. */
  lemma CutFront<T>(w: T -> nat, budget: int, pieces: seq<seq<T>>, items: seq<T>)
    requires pieces != [] && IsCut(w, budget, pieces, items)
    ensures var last := pieces[|pieces| - 1];
      && last != [] && |last| <= |items| && items[|items| - |last|..] == last
      && IsCut(w, budget, pieces[..|pieces| - 1], items[..|items| - |last|])
  {
    var last := pieces[|pieces| - 1];
    assert Fits(w, budget, last);
    assert items == Flatten(pieces[..|pieces| - 1]) + last;
  }

  /**
   A cut of the items before the last one: drop the last item of the last piece, which leaves an
   acceptable shorter piece, or nothing of it.
   */
  lemma CutShorter<T>(w: T -> nat, budget: int, pieces: seq<seq<T>>, items: seq<T>) returns (shorter: seq<seq<T>>)
    requires items != [] && IsCut(w, budget, pieces, items)
    ensures IsCut(w, budget, shorter, items[..|items| - 1])
    ensures pieces != [] && var last := pieces[|pieces| - 1];
      if |last| == 1 then shorter == pieces[..|pieces| - 1]
      else last != [] && shorter == pieces[..|pieces| - 1] + [last[..|last| - 1]]
  {
    assert pieces != [];
    CutFront(w, budget, pieces, items);
    var last := pieces[|pieces| - 1];
    assert Fits(w, budget, last);
    if |last| == 1 {
      shorter := pieces[..|pieces| - 1];
    } else {
      shorter := pieces[..|pieces| - 1] + [last[..|last| - 1]];
      FlattenAppend(pieces[..|pieces| - 1], last[..|last| - 1]);
      assert items == Flatten(pieces[..|pieces| - 1]) + last;
      assert Fits(w, budget, last[..|last| - 1]);
    }
  }

  /**
   Greedy stays ahead: no cut uses fewer pieces, and one that uses as many has a last piece at
   least as long, so greedy has more room left.
   */
  lemma {:induction false} GreedyStaysAhead<T>(w: T -> nat, budget: int, pieces: seq<seq<T>>, items: seq<T>)
    requires IsCut(w, budget, pieces, items)
    ensures var greedy := Split(w, budget, items);
      && |greedy| <= |pieces|
      && (|greedy| == |pieces| && greedy != [] ==> |greedy[|greedy| - 1]| <= |pieces[|pieces| - 1]|)
    decreases |items|
  {
    if items != [] {
      var front, item := items[..|items| - 1], items[|items| - 1];
      var shorter := CutShorter(w, budget, pieces, items);
      GreedyStaysAhead(w, budget, shorter, front);
      SplitIsCut(w, budget, front);
      var done, last := Split(w, budget, front), pieces[|pieces| - 1];
      CutFront(w, budget, pieces, items);
      if done != [] && |last| > 1 && |done| == |pieces| {
        OpenHasRoom(w, budget, pieces, done, items);
      }
    }
  }

  /** As many pieces and a shorter open one: the item that fits the cut's last piece fits greedy's too. */
  lemma OpenHasRoom<T>(w: T -> nat, budget: int, pieces: seq<seq<T>>, done: seq<seq<T>>, items: seq<T>)
    requires items != [] && IsCut(w, budget, pieces, items) && IsCut(w, budget, done, items[..|items| - 1])
    requires done != [] && pieces != [] && |pieces[|pieces| - 1]| > 1
    requires |done[|done| - 1]| <= |pieces[|pieces| - 1]| - 1
    ensures Weight(w, done[|done| - 1]) + w(items[|items| - 1]) <= budget
  {
    var front, item := items[..|items| - 1], items[|items| - 1];
    var last, open := pieces[|pieces| - 1], done[|done| - 1];
    CutFront(w, budget, pieces, items);
    CutFront(w, budget, done, front);
    assert Fits(w, budget, last);
    var extra := |last| - 1 - |open|;
    assert last == last[..extra] + (open + [item]);
    WeightConcat(w, last[..extra], open + [item]);
    WeightAppend(w, open, item);
  }
}
