/** Chunking transcript lines for the model: never mid-message, as few chunks as the limit allows. */
module Transcript {
  import opened Greedy

  /** A line and the newline that will join it. */
  function LineSize(line: string): nat {
    |line| + 1
  }

  /** `"\n".join(lines)`. */
  function Joined(lines: seq<string>): string {
    if lines == [] then ""
    else if |lines| == 1 then lines[0]
    else Joined(lines[..|lines| - 1]) + "\n" + lines[|lines| - 1]
  }

  function JoinedAll(groups: seq<seq<string>>): seq<string> {
    seq(|groups|, k requires 0 <= k < |groups| => Joined(groups[k]))
  }

  method ChunkLines(lines: seq<string>, maxChars: int) returns (chunks: seq<string>)
    ensures chunks == JoinedAll(Split(LineSize, maxChars, lines))
  {
    chunks := [];
    var current: seq<string>, size := [], 0;
    ghost var closed: seq<seq<string>> := [];
    for n := 0 to |lines|
      invariant size == Weight(LineSize, current) && (n == 0 <==> current == [])
      invariant Filled(LineSize, maxChars, lines, n, closed, current)
      invariant chunks == JoinedAll(closed)
    {
      var line := lines[n];
      var lineSize := |line| + 1;
      WeightAppend(LineSize, current, line);
      if current == [] || size + lineSize > maxChars {
        OpensPiece(LineSize, maxChars, lines, n, closed, current);
      } else {
        JoinsPiece(LineSize, maxChars, lines, n, closed, current);
      }
      if current != [] && size + lineSize > maxChars {
        chunks, closed := chunks + [Joined(current)], closed + [current];
        current, size := [], 0;
        WeightAppend(LineSize, current, line);
      }
      current := current + [line];
      size := size + lineSize;
    }
    FilledAll(LineSize, maxChars, lines, closed, current);
    if current != [] {
      chunks := chunks + [Joined(current)];
    }
  }

  lemma {:induction false} JoinedLength(lines: seq<string>)
    requires lines != []
    ensures |Joined(lines)| + 1 == Weight(LineSize, lines)
  {
    if |lines| == 1 {
      assert lines[..0] == [];
    } else {
      JoinedLength(lines[..|lines| - 1]);
    }
  }

  /** A join of joins is one join. */
  lemma {:induction false} JoinedFlatten(groups: seq<seq<string>>)
    requires forall k :: 0 <= k < |groups| ==> groups[k] != []
    ensures Joined(JoinedAll(groups)) == Joined(Flatten(groups))
  {
    if groups != [] {
      var front, last := groups[..|groups| - 1], groups[|groups| - 1];
      assert JoinedAll(groups)[..|groups| - 1] == JoinedAll(front);
      JoinedFlatten(front);
      if front != [] {
        assert front[|front| - 1] != [];
        JoinedConcat(Flatten(front), last);
      } else {
        assert Flatten(groups) == last;
      }
    }
  }

  lemma {:induction false} JoinedConcat(a: seq<string>, b: seq<string>)
    requires a != [] && b != []
    ensures Joined(a + b) == Joined(a) + "\n" + Joined(b)
  {
    assert (a + b)[..|a + b| - 1] == a + b[..|b| - 1];
    if |b| == 1 {
      assert a + b[..0] == a;
    } else {
      JoinedConcat(a, b[..|b| - 1]);
    }
  }

  /**
   The chunks lose nothing and keep the order; each is shorter than `maxChars` or is one whole
   message; and no way of grouping whole consecutive messages under the limit needs fewer.
   */
  lemma ChunksAreLosslessBoundedFewest(lines: seq<string>, maxChars: int, groups: seq<seq<string>>)
    requires IsCut(LineSize, maxChars, groups, lines)
    ensures var chunks := JoinedAll(Split(LineSize, maxChars, lines));
      && Joined(chunks) == Joined(lines)
      && (forall k :: 0 <= k < |chunks| ==> |chunks[k]| < maxChars || chunks[k] in lines)
      && |chunks| <= |groups|
  {
    var split := Split(LineSize, maxChars, lines);
    SplitIsCut(LineSize, maxChars, lines);
    GreedyStaysAhead(LineSize, maxChars, groups, lines);
    assert forall k :: 0 <= k < |split| ==> Fits(LineSize, maxChars, split[k]);
    JoinedFlatten(split);
    forall k | 0 <= k < |split|
      ensures |Joined(split[k])| < maxChars || Joined(split[k]) in lines
    {
      JoinedLength(split[k]);
      if |split[k]| == 1 {
        PieceInFlatten(split, k);
        assert split[k][0] in Flatten(split);
      }
    }
  }

  lemma {:induction false} PieceInFlatten<T>(pieces: seq<seq<T>>, k: nat)
    requires k < |pieces|
    ensures forall x :: x in pieces[k] ==> x in Flatten(pieces)
  {
    if k < |pieces| - 1 {
      PieceInFlatten(pieces[..|pieces| - 1], k);
    }
  }
}
