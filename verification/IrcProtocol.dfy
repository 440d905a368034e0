/** The IRC line protocol: printing messages within 512 bytes, and parsing server lines. */
module IrcProtocol {
  import opened Basics
  import opened Greedy

  const LINE_BYTES := 512

  datatype IrcLine = IrcLine(prefix: string, command: string, params: seq<string>, trailing: string)

  // ---------------------------------------------------------------- bytes

  /** The UTF-8 width of a character. */
  function Width(c: char): nat {
    if c as int < 0x80 then 1
    else if c as int < 0x800 then 2
    else if c as int < 0x1_0000 then 3
    else 4
  }

  /** How many bits of a code point `n` bytes of UTF-8 carry (section 3 of RFC 3629). */
  function Payload(n: nat): nat {
    match n
    case 0 => 0
    case 1 => 7
    case 2 => 5 + 6
    case 3 => 4 + 6 + 6
    case _ => 3 + 6 + 6 + 6
  }

  function PowerOfTwo(n: nat): nat {
    if n == 0 then 1 else 2 * PowerOfTwo(n - 1)
  }

  /** The width is the fewest bytes that carry the code point. */
  lemma WidthIsLeast(c: char, n: nat)
    requires n > 0
    ensures Width(c) <= n <==> (c as int) < PowerOfTwo(Payload(n))
  {
    assert PowerOfTwo(7) == 0x80 && PowerOfTwo(11) == 0x800;
    assert PowerOfTwo(16) == 0x1_0000 && PowerOfTwo(21) == 0x20_0000;
  }

  function Bytes(s: string): nat {
    Weight(Width, s)
  }

  /** The pieces `_split_bytes` returns. A first character wider than the budget leaves an empty piece before it. */
  function Pieces(text: string, budget: int): seq<string> {
    Lead(text, budget) + Split(Width, budget, text)
  }

  method SplitBytes(text: string, budget: int) returns (pieces: seq<string>)
    ensures pieces == Pieces(text, budget)
  {
    if text == [] {
      return [];
    }
    pieces := [];
    var current, size := "", 0;
    ghost var closed: seq<string> := [];
    for n := 0 to |text|
      invariant size == Bytes(current)
      invariant Holds(text, budget, n, pieces, closed, current)
    {
      var width := Width(text[n]);
      TakesNext(text, budget, n, pieces, closed, current);
      if size + width > budget {
        pieces := pieces + [current];
        closed := if n > 0 then closed + [current] else [];
        current, size := "", 0;
      }
      current := current + [text[n]];
      size := size + width;
    }
    pieces := pieces + [current];
    AllTaken(text, budget, pieces, closed, current);
  }

  /** The empty piece that a first character wider than the budget leaves. */
  function Lead(text: string, budget: int): seq<string> {
    if text != [] && Width(text[0]) > budget then [""] else []
  }

  /** After `n` characters: the closed pieces, behind the leading empty one if any, and the open piece. */
  ghost predicate Holds(text: string, budget: int, n: nat, pieces: seq<string>, closed: seq<string>, current: string)
    requires n <= |text|
  {
    && Filled(Width, budget, text, n, closed, current)
    && pieces == (if n > 0 then Lead(text, budget) else []) + closed
  }

  lemma AllTaken(text: string, budget: int, pieces: seq<string>, closed: seq<string>, current: string)
    requires text != [] && pieces != [] && pieces[|pieces| - 1] == current
    requires Holds(text, budget, |text|, pieces[..|pieces| - 1], closed, current)
    ensures pieces == Pieces(text, budget)
  {
    FilledAll(Width, budget, text, closed, current);
    var front := pieces[..|pieces| - 1];
    assert pieces == front + [current];
    Regroup(Lead(text, budget), closed, [current]);
  }

  lemma Regroup<T>(a: seq<T>, b: seq<T>, c: seq<T>)
    ensures (a + b) + c == a + (b + c)
  {
  }

  /** One character more: it joins the open piece, or opens the next. */
  lemma FillsNext(text: string, budget: int, n: nat, closed: seq<string>, current: string)
    requires n < |text| && Filled(Width, budget, text, n, closed, current)
    ensures if Bytes(current) + Width(text[n]) > budget
            then Filled(Width, budget, text, n + 1, if n > 0 then closed + [current] else [], [text[n]])
            else Filled(Width, budget, text, n + 1, closed, current + [text[n]])
  {
    if n == 0 || Bytes(current) + Width(text[n]) > budget {
      OpensPiece(Width, budget, text, n, closed, current);
    } else {
      JoinsPiece(Width, budget, text, n, closed, current);
    }
    assert [] + [text[n]] == [text[n]];
  }

  /** The same, with what the method holds. */
  lemma TakesNext(text: string, budget: int, n: nat, pieces: seq<string>, closed: seq<string>, current: string)
    requires n < |text| && Holds(text, budget, n, pieces, closed, current)
    ensures Bytes("" + [text[n]]) == Width(text[n]) && Bytes(current + [text[n]]) == Bytes(current) + Width(text[n])
    ensures if Bytes(current) + Width(text[n]) > budget
            then Holds(text, budget, n + 1, pieces + [current], if n > 0 then closed + [current] else [],
                       "" + [text[n]])
            else Holds(text, budget, n + 1, pieces, closed, current + [text[n]])
  {
    WeightAppend(Width, current, text[n]);
    WeightAppend(Width, "", text[n]);
    assert "" + [text[n]] == [text[n]];
    FillsNext(text, budget, n, closed, current);
    Regroup(Lead(text, budget), closed, [current]);
  }

  /** Every piece is non-empty and within budget. */
  ghost predicate WithinBudget(pieces: seq<string>, budget: int) {
    forall k :: 0 <= k < |pieces| ==> pieces[k] != "" && Bytes(pieces[k]) <= budget
  }

  lemma {:induction false} WidthAtMostBytes(s: string, k: nat)
    requires k < |s|
    ensures Width(s[k]) <= Bytes(s)
  {
    if k < |s| - 1 {
      WidthAtMostBytes(s[..|s| - 1], k);
    }
  }

  lemma BytesOfOne(s: string)
    requires |s| == 1
    ensures Bytes(s) == Width(s[0])
  {
    assert s == [] + [s[0]];
    WeightAppend(Width, [], s[0]);
  }

  lemma {:induction false} PlaceOf(pieces: seq<string>, i: nat) returns (p: nat, k: nat)
    requires i < |Flatten(pieces)|
    ensures p < |pieces| && k < |pieces[p]| && pieces[p][k] == Flatten(pieces)[i]
  {
    var front := Flatten(pieces[..|pieces| - 1]);
    if i < |front| {
      p, k := PlaceOf(pieces[..|pieces| - 1], i);
    } else {
      p, k := |pieces| - 1, i - |front|;
    }
  }

  lemma SingleItemSplits(text: string, budget: int, p: nat)
    requires p < |Split(Width, budget, text)|
    requires forall i :: 0 <= i < |text| ==> Width(text[i]) <= budget
    ensures var piece := Split(Width, budget, text)[p]; piece != "" && Bytes(piece) <= budget
  {
    SplitIsCut(Width, budget, text);
    var pieces := Split(Width, budget, text);
    assert Fits(Width, budget, pieces[p]);
    if |pieces[p]| == 1 {
      InFlatten(pieces, p, 0);
      BytesOfOne(pieces[p]);
    }
  }

  lemma {:induction false} InFlatten(pieces: seq<string>, p: nat, k: nat)
    requires p < |pieces| && k < |pieces[p]|
    ensures exists i :: 0 <= i < |Flatten(pieces)| && Flatten(pieces)[i] == pieces[p][k]
  {
    var front := Flatten(pieces[..|pieces| - 1]);
    if p < |pieces| - 1 {
      InFlatten(pieces[..|pieces| - 1], p, k);
      var i :| 0 <= i < |front| && front[i] == pieces[p][k];
      assert Flatten(pieces)[i] == pieces[p][k];
    } else {
      assert Flatten(pieces)[|front| + k] == pieces[p][k];
    }
  }

  /**
   The pieces are within budget, and none is empty, exactly when no single character is wider than
   the budget; a budget of four always suffices.
   */
  lemma PiecesFitExactly(text: string, budget: int)
    ensures WithinBudget(Pieces(text, budget), budget)
        <==> forall i :: 0 <= i < |text| ==> Width(text[i]) <= budget
    ensures budget >= 4 ==> WithinBudget(Pieces(text, budget), budget)
  {
    var split, pieces := Split(Width, budget, text), Pieces(text, budget);
    SplitIsCut(Width, budget, text);
    if forall i :: 0 <= i < |text| ==> Width(text[i]) <= budget {
      forall p | 0 <= p < |split|
        ensures split[p] != "" && Bytes(split[p]) <= budget
      {
        SingleItemSplits(text, budget, p);
      }
    } else {
      var i :| 0 <= i < |text| && Width(text[i]) > budget;
      var p, k := PlaceOf(split, i);
      WidthAtMostBytes(split[p], k);
      assert pieces[|pieces| - |split| + p] == split[p];
    }
  }

  /** Lossless whatever the budget, and with the fewest pieces any cut within the budget can have. */
  lemma PiecesAreLosslessFewest(text: string, budget: int, cut: seq<string>)
    requires Flatten(cut) == text && WithinBudget(cut, budget)
    ensures Flatten(Pieces(text, budget)) == text && |Pieces(text, budget)| <= |cut|
  {
    SplitIsCut(Width, budget, text);
    assert IsCut(Width, budget, cut, text);
    GreedyStaysAhead(Width, budget, cut, text);
    NoLead(text, budget, cut);
    assert [] + Split(Width, budget, text) == Split(Width, budget, text);
  }

  /** When the text can be cut within budget at all, no empty piece leads. */
  lemma NoLead(text: string, budget: int, cut: seq<string>)
    requires Flatten(cut) == text && WithinBudget(cut, budget)
    ensures Lead(text, budget) == []
  {
    if text != "" {
      var p, k := PlaceOf(cut, 0);
      WidthAtMostBytes(cut[p], k);
    }
  }

  // ---------------------------------------------------------------- printing

  /** `text.split("\n")`. */
  function Paragraphs(text: string): (paragraphs: seq<string>)
    ensures paragraphs != []
  {
    if text == [] then [""] else Extended(Paragraphs(text[..|text| - 1]), text[|text| - 1])
  }

  /** One character more opens the next line, or joins the last. */
  function Extended(paragraphs: seq<string>, c: char): (longer: seq<string>)
    requires paragraphs != []
    ensures longer != []
  {
    var front, last := paragraphs[..|paragraphs| - 1], paragraphs[|paragraphs| - 1];
    if c == '\n' then paragraphs + [""] else front + [last + [c]]
  }

  /** `"\n".join(paragraphs)`. */
  function Joined(paragraphs: seq<string>): string {
    if paragraphs == [] then ""
    else if |paragraphs| == 1 then paragraphs[0]
    else Joined(paragraphs[..|paragraphs| - 1]) + "\n" + paragraphs[|paragraphs| - 1]
  }

  lemma JoinedNext(front: seq<string>, last: string)
    ensures Joined(front + [last]) == (if front == [] then "" else Joined(front) + "\n") + last
  {
    assert (front + [last])[..|front|] == front;
  }

  lemma ExtendedJoins(front: seq<string>, last: string, c: char)
    ensures Joined(Extended(front + [last], c)) == Joined(front + [last]) + [c]
  {
    var paragraphs := front + [last];
    assert paragraphs[..|front|] == front;
    if c == '\n' {
      JoinedNext(paragraphs, "");
    } else {
      JoinedNext(front, last);
      JoinedNext(front, last + [c]);
      Regroup(if front == [] then "" else Joined(front) + "\n", last, [c]);
    }
  }

  ghost predicate NoNewlines(paragraphs: seq<string>) {
    forall p :: 0 <= p < |paragraphs| ==> '\n' !in paragraphs[p]
  }

  lemma ExtendedIsClean(paragraphs: seq<string>, c: char)
    requires paragraphs != [] && NoNewlines(paragraphs)
    ensures NoNewlines(Extended(paragraphs, c))
  {
  }

  /** The paragraphs are the lines of the text: no newline is left in any, and joined by newlines they are the text. */
  lemma {:induction false} ParagraphsAreLines(text: string)
    ensures Joined(Paragraphs(text)) == text && NoNewlines(Paragraphs(text))
  {
    if text != [] {
      var n := |text| - 1;
      ParagraphsAreLines(text[..n]);
      NextParagraphs(Paragraphs(text[..n]), text[..n], text[n]);
      assert text == text[..n] + [text[n]];
    }
  }

  lemma NextParagraphs(before: seq<string>, text: string, c: char)
    requires before != [] && Joined(before) == text && NoNewlines(before)
    ensures Joined(Extended(before, c)) == text + [c] && NoNewlines(Extended(before, c))
  {
    var n := |before| - 1;
    assert before == before[..n] + [before[n]];
    ExtendedJoins(before[..n], before[n], c);
    ExtendedIsClean(before, c);
  }

  function Budget(target: string): int {
    LINE_BYTES - Bytes("PRIVMSG " + target + " :") - 2
  }

  function Privmsg(target: string, chunk: string): string {
    "PRIVMSG " + target + " :" + chunk
  }

  function Prefixed(target: string, chunks: seq<string>): seq<string> {
    seq(|chunks|, k requires 0 <= k < |chunks| => Privmsg(target, chunks[k]))
  }

  /** The chunks of every paragraph, in order. */
  function Chunks(paragraphs: seq<string>, budget: int): seq<string> {
    if paragraphs == [] then []
    else Chunks(paragraphs[..|paragraphs| - 1], budget) + Pieces(paragraphs[|paragraphs| - 1], budget)
  }

  lemma PrefixedNext(target: string, paragraphs: seq<string>, budget: int, n: nat)
    requires n < |paragraphs|
    ensures Prefixed(target, Chunks(paragraphs[..n + 1], budget))
      == Prefixed(target, Chunks(paragraphs[..n], budget)) + Prefixed(target, Pieces(paragraphs[n], budget))
  {
    assert paragraphs[..n + 1][..n] == paragraphs[..n];
    assert Chunks(paragraphs[..n + 1], budget) == Chunks(paragraphs[..n], budget) + Pieces(paragraphs[n], budget);
  }

  method PrivmsgLines(target: string, text: string) returns (lines: seq<string>)
    ensures lines == Prefixed(target, Chunks(Paragraphs(text), Budget(target)))
  {
    var budget := Budget(target);
    lines := [];
    var paragraphs := Paragraphs(text);
    for n := 0 to |paragraphs|
      invariant lines == Prefixed(target, Chunks(paragraphs[..n], budget))
    {
      var pieces := SplitBytes(paragraphs[n], budget);
      lines := lines + Prefixed(target, pieces);
      PrefixedNext(target, paragraphs, budget, n);
    }
    assert paragraphs[..|paragraphs|] == paragraphs;
  }

  /** What the reader sees, joined up, is every paragraph in full and nothing else. */
  lemma {:induction false} ChunksLoseNothing(paragraphs: seq<string>, budget: int)
    ensures Flatten(Chunks(paragraphs, budget)) == Flatten(paragraphs)
  {
    if paragraphs != [] {
      var front, last := paragraphs[..|paragraphs| - 1], paragraphs[|paragraphs| - 1];
      ChunksLoseNothing(front, budget);
      SplitIsCut(Width, budget, last);
      FlattenConcat([""], Split(Width, budget, last));
      FlattenEmpty();
      FlattenConcat([], Split(Width, budget, last));
      assert [] + Split(Width, budget, last) == Split(Width, budget, last);
      FlattenConcat(Chunks(front, budget), Pieces(last, budget));
    }
  }

  lemma FlattenEmpty()
    ensures Flatten([""]) == ""
  {
    assert [""][..0] == [];
  }

  lemma {:induction false} FlattenConcat(a: seq<string>, b: seq<string>)
    ensures Flatten(a + b) == Flatten(a) + Flatten(b)
  {
    if b == [] {
      assert a + b == a;
    } else {
      var front, last := b[..|b| - 1], b[|b| - 1];
      FlattenConcat(a, front);
      assert b == front + [last] && a + b == (a + front) + [last];
      FlattenAppend(front, last);
      FlattenAppend(a + front, last);
    }
  }

  lemma {:induction false} ChunkOfParagraph(paragraphs: seq<string>, budget: int, k: nat)
    requires k < |Chunks(paragraphs, budget)|
    requires forall p :: 0 <= p < |paragraphs| ==> WithinBudget(Pieces(paragraphs[p], budget), budget)
    ensures var chunk := Chunks(paragraphs, budget)[k]; chunk != "" && Bytes(chunk) <= budget
  {
    var front := paragraphs[..|paragraphs| - 1];
    if k < |Chunks(front, budget)| {
      ChunkOfParagraph(front, budget, k);
    } else {
      assert WithinBudget(Pieces(paragraphs[|paragraphs| - 1], budget), budget);
    }
  }

  /** Every line plus CRLF is at most 512 bytes, and says something, once the target leaves room for a character. */
  lemma LinesFit(target: string, text: string, k: nat)
    requires Budget(target) >= 4
    requires k < |Chunks(Paragraphs(text), Budget(target))|
    ensures var chunk := Chunks(Paragraphs(text), Budget(target))[k];
      chunk != "" && Bytes(Privmsg(target, chunk) + "\r\n") <= LINE_BYTES
  {
    var paragraphs, budget := Paragraphs(text), Budget(target);
    forall p | 0 <= p < |paragraphs|
      ensures WithinBudget(Pieces(paragraphs[p], budget), budget)
    {
      PiecesFitExactly(paragraphs[p], budget);
    }
    ChunkOfParagraph(paragraphs, budget, k);
    BytesOfLine(target, Chunks(paragraphs, budget)[k]);
  }

  lemma BytesOfLine(target: string, chunk: string)
    ensures Bytes(Privmsg(target, chunk) + "\r\n") == 512 - Budget(target) + Bytes(chunk)
  {
    WeightConcat(Width, "PRIVMSG " + target + " :", chunk);
    WeightConcat(Width, Privmsg(target, chunk), "\r\n");
    assert "\r\n"[..1] == "\r" && "\r"[..0] == "";
    assert Bytes("\r\n") == 2;
  }

  /** No other way to say a paragraph in lines of at most 512 bytes with their CRLF takes fewer lines. */
  lemma FewestLines(target: string, paragraph: string, cut: seq<string>)
    requires Flatten(cut) == paragraph
    requires forall k :: 0 <= k < |cut| ==> cut[k] != "" && Bytes(Privmsg(target, cut[k]) + "\r\n") <= 512
    ensures |Prefixed(target, Pieces(paragraph, Budget(target)))| <= |cut|
  {
    forall k | 0 <= k < |cut| ensures Bytes(cut[k]) <= Budget(target) {
      BytesOfLine(target, cut[k]);
    }
    PiecesAreLosslessFewest(paragraph, Budget(target), cut);
  }

  // ---------------------------------------------------------------- parsing

  /** Python's `str.isspace`, which `strip()` and `split()` use. */
  predicate IsSpace(c: char) {
    || '\t' <= c <= '\r' || '\U{1C}' <= c <= ' ' || c == '\U{85}' || c == '\U{A0}' || c == '\U{1680}'
    || '\U{2000}' <= c <= '\U{200A}' || c == '\U{2028}' || c == '\U{2029}' || c == '\U{202F}'
    || c == '\U{205F}' || c == '\U{3000}'
  }

  /** The whitespace characters of Unicode, one by one. */
  lemma WhitespaceIs(c: char)
    ensures IsSpace(c) <==> c as int in {
      9, 10, 11, 12, 13, 28, 29, 30, 31, 32, 133, 160, 5760, 8192, 8193, 8194, 8195, 8196, 8197, 8198, 8199,
      8200, 8201, 8202, 8232, 8233, 8239, 8287, 12288}
  {
  }

  predicate IsCrlf(c: char) {
    c == '\r' || c == '\n'
  }

  function StripLeft(p: char -> bool, s: string): string {
    if s != "" && p(s[0]) then StripLeft(p, s[1..]) else s
  }

  function StripRight(p: char -> bool, s: string): string {
    if s != "" && p(s[|s| - 1]) then StripRight(p, s[..|s| - 1]) else s
  }

  function Strip(p: char -> bool, s: string): string {
    StripRight(p, StripLeft(p, s))
  }

  /** Where `sep` first occurs in `s`, at or after `from`. */
  function Find(s: string, sep: string, from: nat): Option<nat>
    decreases |s| - from
  {
    if from + |sep| > |s| then None
    else if s[from..from + |sep|] == sep then Some(from)
    else if from == |s| then None
    else Find(s, sep, from + 1)
  }

  /** `s.partition(sep)`, without the separator. */
  function Partition(s: string, sep: string): (string, string) {
    match Find(s, sep, 0)
    case None => (s, "")
    case Some(i) => if i + |sep| <= |s| then (s[..i], s[i + |sep|..]) else (s, "")
  }

  /** The length of the word at the front of `s`. */
  function WordLength(s: string): (n: nat)
    ensures n <= |s|
    ensures s != "" && !IsSpace(s[0]) ==> n > 0
  {
    if s == "" || IsSpace(s[0]) then 0 else 1 + WordLength(s[1..])
  }

  /** `s.split()`. */
  function Words(s: string): seq<string>
    decreases |s|
  {
    if s == "" then []
    else if IsSpace(s[0]) then Words(s[1..])
    else
      var n := WordLength(s);
      [s[..n]] + Words(s[n..])
  }

  function Upper(s: string): string {
    seq(|s|, k requires 0 <= k < |s| => if 'a' <= s[k] <= 'z' then (s[k] as int - 32) as char else s[k])
  }

  function ParseLine(raw: string): Option<IrcLine> {
    ParseStripped(Strip(IsSpace, Strip(IsCrlf, raw)))
  }

  function ParseStripped(line: string): Option<IrcLine> {
    if line == "" then None
    else if line[0] == ':' then
      var (prefix, body) := Partition(line[1..], " ");
      ParseBody(prefix, body)
    else ParseBody("", line)
  }

  function ParseBody(prefix: string, body: string): Option<IrcLine> {
    if body == "" then None
    else
      var (head, trailing) := Partition(body, " :");
      var parts := Words(head);
      if parts == [] then None
      else Some(IrcLine(prefix, Upper(parts[0]), parts[1..], trailing))
  }

  // ---------------------------------------------------------------- round trip

  ghost predicate SpaceFree(s: string) {
    forall k :: 0 <= k < |s| ==> !IsSpace(s[k])
  }

  lemma {:induction false} StripRightTwice(s: string)
    ensures StripRight(IsSpace, StripRight(IsCrlf, s)) == StripRight(IsSpace, s)
  {
    if s != "" && IsCrlf(s[|s| - 1]) {
      StripRightTwice(s[..|s| - 1]);
    }
  }

  lemma {:induction false} StripRightStopsAt(p: char -> bool, head: string, tail: string)
    requires head != "" && !p(head[|head| - 1])
    ensures StripRight(p, head + tail) == head + StripRight(p, tail)
  {
    if tail == "" {
      assert head + tail == head;
    } else if p(tail[|tail| - 1]) {
      assert (head + tail)[..|head + tail| - 1] == head + tail[..|tail| - 1];
      StripRightStopsAt(p, head, tail[..|tail| - 1]);
    }
  }

  lemma {:induction false} StripRightOfSpace(s: string, tail: string)
    requires forall k :: 0 <= k < |tail| ==> IsSpace(tail[k])
    ensures StripRight(IsSpace, s + tail) == StripRight(IsSpace, s)
  {
    if tail == "" {
      assert s + tail == s;
    } else {
      assert (s + tail)[..|s + tail| - 1] == s + tail[..|tail| - 1];
      StripRightOfSpace(s, tail[..|tail| - 1]);
    }
  }

  ghost predicate Blank(s: string) {
    forall k :: 0 <= k < |s| ==> IsSpace(s[k])
  }

  lemma {:induction false} StripLeftStopsAt(p: char -> bool, lead: string, rest: string)
    requires rest != "" && !p(rest[0])
    ensures StripLeft(p, lead + rest) == StripLeft(p, lead) + rest
  {
    if lead == "" {
      assert lead + rest == rest && StripLeft(p, lead) == "";
    } else if p(lead[0]) {
      assert (lead + rest)[1..] == lead[1..] + rest;
      StripLeftStopsAt(p, lead[1..], rest);
    }
  }

  lemma {:induction false} BlankStripsAway(lead: string)
    requires Blank(lead)
    ensures Blank(StripLeft(IsCrlf, lead)) && StripLeft(IsSpace, lead) == ""
  {
    if lead != "" {
      BlankStripsAway(lead[1..]);
    }
  }

  /** The strips from the left take whatever blank stands before the first solid character. */
  lemma LeadStripped(lead: string, rest: string, after: string)
    requires Blank(lead) && rest != "" && after != "" && !IsSpace(rest[0]) && !IsSpace(after[0])
    ensures StripLeft(IsCrlf, lead + rest) == StripLeft(IsCrlf, lead) + rest
    ensures StripLeft(IsSpace, StripLeft(IsCrlf, lead) + after) == after
  {
    var left := StripLeft(IsCrlf, lead);
    StripLeftStopsAt(IsCrlf, lead, rest);
    BlankStripsAway(lead);
    BlankStripsAway(left);
    StripLeftStopsAt(IsSpace, left, after);
    assert "" + after == after;
  }

  /** The two strips of a line take the blank before it, the CRLF, and the whitespace behind its last solid part. */
  lemma LineStripped(lead: string, head: string, tail: string)
    requires Blank(lead) && head != "" && !IsSpace(head[0]) && !IsSpace(head[|head| - 1])
    ensures Strip(IsSpace, Strip(IsCrlf, lead + (head + (tail + "\r\n")))) == head + StripRight(IsSpace, tail)
  {
    var left, kept := StripLeft(IsCrlf, lead), StripRight(IsCrlf, tail + "\r\n");
    LeadStripped(lead, head + (tail + "\r\n"), head + kept);
    Regroup(left, head, tail + "\r\n");
    StripRightStopsAt(IsCrlf, left + head, tail + "\r\n");
    Regroup(left, head, kept);
    StripRightStopsAt(IsSpace, head, StripRight(IsCrlf, tail + "\r\n"));
    StripRightTwice(tail + "\r\n");
    StripRightOfSpace(tail, "\r\n");
  }

  lemma PrintedLineStripped(target: string, chunk: string)
    ensures Strip(IsSpace, Strip(IsCrlf, Privmsg(target, chunk) + "\r\n"))
            == Privmsg(target, StripRight(IsSpace, chunk))
  {
    var head := "PRIVMSG " + target + " :";
    assert Privmsg(target, chunk) + "\r\n" == head + (chunk + "\r\n");
    assert head[0] == 'P' && head[|head| - 1] == ':';
    LineStripped("", head, chunk);
    assert "" + (head + (chunk + "\r\n")) == head + (chunk + "\r\n");
  }

  predicate Occurs(s: string, sep: string, i: nat) {
    i + |sep| <= |s| && s[i..i + |sep|] == sep
  }

  lemma {:induction false} FindSkips(s: string, sep: string, from: nat, at: nat)
    requires from <= at && Occurs(s, sep, at) && sep != ""
    requires forall i :: from <= i < at ==> !Occurs(s, sep, i)
    ensures Find(s, sep, from) == Some(at)
    decreases at - from
  {
    if from < at {
      assert !Occurs(s, sep, from);
      FindSkips(s, sep, from + 1, at);
    }
  }

  lemma NoSpaceNoSeparator(s: string, i: nat)
    requires i < |s| && (s[i] != ' ' || (i + 1 < |s| && s[i + 1] != ':'))
    ensures !Occurs(s, " :", i)
  {
    if i + 2 <= |s| {
      assert s[i..i + 2][0] == s[i] && s[i..i + 2][1] == s[i + 1];
    }
  }

  lemma PrintedLinePartition(target: string, text: string)
    requires SpaceFree(target) && (target == "" || target[0] != ':')
    ensures Partition(Privmsg(target, text), " :") == ("PRIVMSG " + target, text)
  {
    var s, at := Privmsg(target, text), 8 + |target|;
    assert s[at..at + 2] == " :";
    forall i | 0 <= i < at
      ensures !Occurs(s, " :", i)
    {
      assert i < 7 ==> s[i] == "PRIVMSG"[i];
      assert i > 7 ==> s[i] == target[i - 8];
      NoSpaceNoSeparator(s, i);
    }
    FindSkips(s, " :", 0, at);
    assert s[..at] == "PRIVMSG " + target && s[at + 2..] == text;
  }

  /** A target with a leading colon: the separator is found one word early. */
  lemma ColonPartition(target: string, text: string)
    requires target != "" && target[0] == ':'
    ensures Partition(Privmsg(target, text), " :").0 == "PRIVMSG"
  {
    var s := Privmsg(target, text);
    assert s[7..9] == " :";
    forall i | 0 <= i < 7
      ensures !Occurs(s, " :", i)
    {
      assert s[i] == "PRIVMSG"[i];
      NoSpaceNoSeparator(s, i);
    }
    FindSkips(s, " :", 0, 7);
    assert s[..7] == "PRIVMSG";
  }

  lemma {:induction false} WordOf(word: string, rest: string)
    requires SpaceFree(word) && (rest == "" || IsSpace(rest[0]))
    ensures WordLength(word + rest) == |word|
  {
    if word == "" {
      assert word + rest == rest;
    } else {
      assert (word + rest)[1..] == word[1..] + rest;
      WordOf(word[1..], rest);
    }
  }

  lemma HeadWords(target: string)
    requires SpaceFree(target)
    ensures Words("PRIVMSG " + target) == ["PRIVMSG"] + (if target == "" then [] else [target])
  {
    var head, rest := "PRIVMSG " + target, " " + target;
    assert head == "PRIVMSG" + rest;
    assert SpaceFree("PRIVMSG");
    WordOf("PRIVMSG", rest);
    assert head[..7] == "PRIVMSG" && head[7..] == rest && rest[1..] == target;
    assert Words(rest) == Words(target);
    if target != "" {
      WordOf(target, "");
      assert target + "" == target && target[..|target|] == target && target[|target|..] == "";
      assert Words("") == [];
      assert Words(target) == [target] + Words("");
    }
  }

  lemma UpperPrivmsg()
    ensures Upper("PRIVMSG") == "PRIVMSG"
  {
  }

  lemma PrintedBodyParses(target: string, text: string)
    requires SpaceFree(target) && (target == "" || target[0] != ':')
    ensures ParseBody("", Privmsg(target, text))
      == Some(IrcLine("", "PRIVMSG", if target == "" then [] else [target], text))
  {
    PrintedLinePartition(target, text);
    HeadWords(target);
    UpperPrivmsg();
  }

  lemma BareIsBody(line: string)
    requires line != "" && line[0] != ':'
    ensures ParseStripped(line) == ParseBody("", line)
  {
  }

  /** What a printed line parses to. */
  lemma PrintedLineParses(target: string, chunk: string)
    requires SpaceFree(target) && (target == "" || target[0] != ':')
    ensures ParseLine(Privmsg(target, chunk) + "\r\n")
            == Some(IrcLine("", "PRIVMSG", if target == "" then [] else [target], StripRight(IsSpace, chunk)))
  {
    var printed := Privmsg(target, StripRight(IsSpace, chunk));
    assert printed[0] == 'P';
    PrintedLineStripped(target, chunk);
    BareIsBody(printed);
    PrintedBodyParses(target, StripRight(IsSpace, chunk));
  }

  /** A target that starts with a colon is read as the trailing part: the message loses its target. */
  lemma ColonTargetMisread(target: string, chunk: string)
    requires SpaceFree(target) && target != "" && target[0] == ':'
    ensures var parsed := ParseLine(Privmsg(target, chunk) + "\r\n"); parsed.Some? && parsed.value.params == []
  {
    PrintedLineStripped(target, chunk);
    ColonPartition(target, StripRight(IsSpace, chunk));
    OneWord();
  }

  lemma OneWord()
    ensures Words("PRIVMSG") == ["PRIVMSG"]
  {
    var w := "PRIVMSG";
    assert w + "" == w && w[7..] == "" && w[..7] == w && SpaceFree(w);
    WordOf(w, "");
    assert Words("") == [];
  }

  lemma {:induction false} StripRightShorter(s: string)
    ensures |StripRight(IsSpace, s)| <= |s|
    ensures s != "" && IsSpace(s[|s| - 1]) ==> |StripRight(IsSpace, s)| < |s|
  {
    if s != "" && IsSpace(s[|s| - 1]) {
      StripRightShorter(s[..|s| - 1]);
    }
  }

  /**
   Print, then parse: for a whitespace-free target the line reads back as PRIVMSG, that target and
   that chunk exactly when the target is neither empty nor starts with a colon and the chunk does
   not end in whitespace.
   */
  lemma RoundTripExact(target: string, chunk: string)
    requires SpaceFree(target) && chunk != ""
    ensures ParseLine(Privmsg(target, chunk) + "\r\n") == Some(IrcLine("", "PRIVMSG", [target], chunk))
        <==> target != "" && target[0] != ':' && !IsSpace(chunk[|chunk| - 1])
  {
    StripRightShorter(chunk);
    if target != "" && target[0] == ':' {
      ColonTargetMisread(target, chunk);
    } else {
      PrintedLineParses(target, chunk);
    }
  }

  /** The round trip of one chunk, for a target that can be read back. */
  lemma ChunkReadsBack(target: string, chunk: string)
    requires SpaceFree(target) && target != "" && target[0] != ':' && chunk != ""
    ensures ParseLine(Privmsg(target, chunk) + "\r\n") == Some(IrcLine("", "PRIVMSG", [target], chunk))
        <==> !IsSpace(chunk[|chunk| - 1])
  {
    RoundTripExact(target, chunk);
  }

  /**
   End to end: every line of a message is at most 512 bytes with its CRLF; it reads back exactly
   when its chunk does not end in whitespace; and the chunks together are the whole message.
   */
  lemma MessageReadsBack(target: string, text: string, k: nat)
    requires SpaceFree(target) && target != "" && target[0] != ':' && Budget(target) >= 4
    requires k < |Chunks(Paragraphs(text), Budget(target))|
    ensures var chunks := Chunks(Paragraphs(text), Budget(target));
      var line := Prefixed(target, chunks)[k] + "\r\n";
      && Bytes(line) <= LINE_BYTES && chunks[k] != ""
      && (ParseLine(line) == Some(IrcLine("", "PRIVMSG", [target], chunks[k]))
          <==> !IsSpace(chunks[k][|chunks[k]| - 1]))
      && Flatten(chunks) == Flatten(Paragraphs(text))
  {
    LinesFit(target, text, k);
    var chunk := Chunks(Paragraphs(text), Budget(target))[k];
    assert Prefixed(target, Chunks(Paragraphs(text), Budget(target)))[k] == Privmsg(target, chunk);
    ChunkReadsBack(target, chunk);
    ChunksLoseNothing(Paragraphs(text), Budget(target));
  }

  // ---------------------------------------------------------------- the shape of inbound traffic

  /** `" ".join(words)`. */
  function Spelled(words: seq<string>): string {
    if words == [] then ""
    else if |words| == 1 then words[0]
    else words[0] + " " + Spelled(words[1..])
  }

  /** A word of a line's head: not empty, without whitespace, and not opened by a colon. */
  ghost predicate IsWord(w: string) {
    w != "" && SpaceFree(w) && w[0] != ':'
  }

  ghost predicate AllWords(words: seq<string>) {
    words != [] && forall k :: 0 <= k < |words| ==> IsWord(words[k])
  }

  lemma {:induction false} SpelledSplits(words: seq<string>)
    requires AllWords(words)
    ensures Words(Spelled(words)) == words
    decreases |words|
  {
    var w, s := words[0], Spelled(words);
    assert IsWord(w) && Words("") == [];
    if |words| == 1 {
      WordOf(w, "");
      assert w + "" == w && s[..|w|] == w && s[|w|..] == "";
    } else {
      var rest := " " + Spelled(words[1..]);
      assert s == w + rest;
      WordOf(w, rest);
      assert s[0] == w[0] && s[..|w|] == w && s[|w|..] == rest && rest[1..] == Spelled(words[1..]);
      assert IsWord(words[1..][0]);
      SpelledSplits(words[1..]);
    }
  }

  /** Spaces stand between words only, so neither end is one, and none is followed by a colon. */
  lemma {:induction false} SpelledIsSolid(words: seq<string>)
    requires AllWords(words)
    ensures var s := Spelled(words); s != "" && !IsSpace(s[0]) && s[0] != ':' && !IsSpace(s[|s| - 1])
    ensures forall i :: 0 <= i < |Spelled(words)| && Spelled(words)[i] == ' ' ==>
      i + 1 < |Spelled(words)| && Spelled(words)[i + 1] != ':'
    decreases |words|
  {
    var w, s := words[0], Spelled(words);
    assert IsWord(w);
    if |words| > 1 {
      var tail := Spelled(words[1..]);
      SpelledIsSolid(words[1..]);
      assert s[|w|] == ' ' && s[|w| + 1..] == tail;
      forall i | 0 <= i < |s| && s[i] == ' ' ensures i + 1 < |s| && s[i + 1] != ':' {
        if i > |w| {
          assert s[i] == tail[i - |w| - 1];
        } else if i == |w| {
          assert s[i + 1] == tail[0];
        }
      }
    }
  }

  lemma {:induction false} FindNothing(s: string, sep: string, from: nat)
    requires sep != "" && from <= |s| && forall i :: from <= i < |s| ==> !Occurs(s, sep, i)
    ensures Find(s, sep, from) == None
    decreases |s| - from
  {
    if from + |sep| <= |s| {
      assert !Occurs(s, sep, from);
      FindNothing(s, sep, from + 1);
    }
  }

  /** What a trailing part adds to a line. */
  function Trailing(trailing: Option<string>): string {
    if trailing.Some? then " :" + trailing.value else ""
  }

  lemma NoEarlySeparator(words: seq<string>, rest: string, i: nat)
    requires AllWords(words) && i < |Spelled(words)|
    ensures !Occurs(Spelled(words) + rest, " :", i)
  {
    var head := Spelled(words);
    SpelledIsSolid(words);
    assert (head + rest)[i] == head[i] && (i + 1 < |head| ==> (head + rest)[i + 1] == head[i + 1]);
    NoSpaceNoSeparator(head + rest, i);
  }

  lemma CutAtSeparator(head: string, text: string)
    requires forall i :: 0 <= i < |head| ==> !Occurs(head + (" :" + text), " :", i)
    ensures Partition(head + (" :" + text), " :") == (head, text)
  {
    var s := head + (" :" + text);
    assert s[|head|] == ' ' && s[|head| + 1] == ':';
    assert s[|head|..|head| + 2] == " :";
    FindSkips(s, " :", 0, |head|);
    assert s[..|head|] == head && s[|head| + 2..] == text;
  }

  lemma BodyPartition(words: seq<string>, trailing: Option<string>)
    requires AllWords(words)
    ensures Partition(Spelled(words) + Trailing(trailing), " :")
      == (Spelled(words), if trailing.Some? then trailing.value else "")
  {
    var head, rest := Spelled(words), Trailing(trailing);
    forall i | 0 <= i < |head| ensures !Occurs(head + rest, " :", i) {
      NoEarlySeparator(words, rest, i);
    }
    if trailing.Some? {
      CutAtSeparator(head, trailing.value);
    } else {
      assert head + rest == head;
      FindNothing(head, " :", 0);
    }
  }

  lemma PrefixPartition(prefix: string, body: string)
    requires ' ' !in prefix
    ensures Partition(prefix + " " + body, " ") == (prefix, body)
  {
    var s, at := prefix + " " + body, |prefix|;
    assert s[at..at + 1] == " ";
    forall i | 0 <= i < at ensures !Occurs(s, " ", i) {
      assert s[i] == prefix[i] && s[i..i + 1][0] == s[i];
    }
    FindSkips(s, " ", 0, at);
    assert s[..at] == prefix && s[at + 1..] == body;
  }

  /** What a prefix adds to a line. */
  function Prefix(prefix: Option<string>): string {
    if prefix.Some? then ":" + prefix.value + " " else ""
  }

  /** The line as a server sends it, with or without a prefix and a trailing part. */
  function Sent(prefix: Option<string>, words: seq<string>, trailing: Option<string>): string {
    Prefix(prefix) + Spelled(words) + Trailing(trailing) + "\r\n"
  }

  lemma BodyParses(prefix: string, words: seq<string>, trailing: Option<string>)
    requires AllWords(words)
    ensures ParseBody(prefix, Spelled(words) + Trailing(trailing)) == Some(IrcLine(
      prefix, Upper(words[0]), words[1..], if trailing.Some? then trailing.value else ""))
  {
    SpelledIsSolid(words);
    SpelledSplits(words);
    BodyPartition(words, trailing);
  }

  /** A prefix is split off before the rest is parsed. */
  lemma PrefixComesOff(prefix: string, body: string)
    requires ' ' !in prefix
    ensures ParseStripped(":" + prefix + " " + body) == ParseBody(prefix, body)
  {
    var line := ":" + prefix + " " + body;
    assert line[1..] == prefix + " " + body;
    PrefixPartition(prefix, body);
  }

  /** The parse of a line that the strips leave whole. */
  lemma StrippedParses(prefix: Option<string>, words: seq<string>, trailing: Option<string>)
    requires AllWords(words) && (prefix.Some? ==> ' ' !in prefix.value)
    ensures ParseStripped(Prefix(prefix) + (Spelled(words) + Trailing(trailing))) == Some(IrcLine(
      if prefix.Some? then prefix.value else "", Upper(words[0]), words[1..],
      if trailing.Some? then trailing.value else ""))
  {
    var body := Spelled(words) + Trailing(trailing);
    BodyParses(if prefix.Some? then prefix.value else "", words, trailing);
    if prefix.Some? {
      PrefixComesOff(prefix.value, body);
    } else {
      SpelledIsSolid(words);
      BareIsBody(body);
      assert "" + body == body;
    }
  }

  /** The strips take the blank before the line, the CRLF, and the whitespace at the end of the trailing part. */
  lemma FrontStripped(lead: string, front: string, trailing: Option<string>)
    requires Blank(lead) && front != "" && !IsSpace(front[0]) && !IsSpace(front[|front| - 1])
    ensures Strip(IsSpace, Strip(IsCrlf, lead + (front + (Trailing(trailing) + "\r\n"))))
      == front + Trailing(Kept(trailing))
  {
    if trailing.Some? {
      var text := trailing.value;
      LineStripped(lead, front + " :", text);
      Regroup(front, " :", text + "\r\n");
      Regroup(" :", text, "\r\n");
      Regroup(front, " :", StripRight(IsSpace, text));
    } else {
      LineStripped(lead, front, "");
    }
  }

  lemma SentStripped(lead: string, prefix: Option<string>, words: seq<string>, trailing: Option<string>)
    requires Blank(lead) && AllWords(words)
    ensures Strip(IsSpace, Strip(IsCrlf, lead + Sent(prefix, words, trailing)))
      == Prefix(prefix) + (Spelled(words) + Trailing(Kept(trailing)))
  {
    SpelledIsSolid(words);
    var front := Prefix(prefix) + Spelled(words);
    assert prefix.None? ==> front == Spelled(words);
    assert front[|front| - 1] == Spelled(words)[|Spelled(words)| - 1];
    FrontStripped(lead, front, trailing);
    Regrouped(Prefix(prefix), Spelled(words), Trailing(trailing), "\r\n");
    Regroup(Prefix(prefix), Spelled(words), Trailing(Kept(trailing)));
  }

  lemma Regrouped(a: string, b: string, c: string, d: string)
    ensures a + b + c + d == (a + b) + (c + d)
  {
  }

  /** A trailing part without the whitespace at its end. */
  function Kept(trailing: Option<string>): Option<string> {
    if trailing.Some? then Some(StripRight(IsSpace, trailing.value)) else None
  }

  /**
   A line of the protocol parses to its parts: the prefix, the command in capitals, every parameter
   in order, and the trailing part without the whitespace at its end, each empty where the line has none.
   Whitespace before the line does not matter.
   */
  lemma ServerLineParses(lead: string, prefix: Option<string>, words: seq<string>, trailing: Option<string>)
    requires Blank(lead) && AllWords(words) && (prefix.Some? ==> ' ' !in prefix.value)
    ensures ParseLine(lead + Sent(prefix, words, trailing)) == Some(IrcLine(
      if prefix.Some? then prefix.value else "", Upper(words[0]), words[1..],
      if trailing.Some? then StripRight(IsSpace, trailing.value) else ""))
  {
    SentStripped(lead, prefix, words, trailing);
    StrippedParses(prefix, words, Kept(trailing));
  }

  const SMALL := "abcdefghijklmnopqrstuvwxyz"
  const CAPITAL := "ABCDEFGHIJKLMNOPQRSTUVWXYZ"

  lemma Alphabet(i: nat)
    requires i < 26
    ensures SMALL[i] as int == 97 + i && CAPITAL[i] as int == 65 + i
  {
  }

  /** Every small ASCII letter becomes its capital, and nothing else changes. */
  lemma UpperMeans(s: string, k: nat)
    requires k < |s|
    ensures |Upper(s)| == |s|
    ensures forall i :: 0 <= i < 26 && s[k] == SMALL[i] ==> Upper(s)[k] == CAPITAL[i]
    ensures s[k] !in SMALL ==> Upper(s)[k] == s[k]
  {
    forall i | 0 <= i < 26 ensures SMALL[i] as int == 97 + i && CAPITAL[i] as int == 65 + i {
      Alphabet(i);
    }
    if 'a' <= s[k] <= 'z' {
      assert SMALL[s[k] as int - 97] == s[k];
    }
  }
}
