/** Neutralizing user text for wikitext, and composing it into one indented discussion line. */
module Sanitizer {
  import opened Basics

  /** The entity that stands for a structure character anywhere in a line. */
  function CharEntity(c: char): Option<string> {
    match c
    case '&' => Some("&amp;")
    case '{' => Some("&#123;")
    case '}' => Some("&#125;")
    case '[' => Some("&#91;")
    case ']' => Some("&#93;")
    case '<' => Some("&lt;")
    case '>' => Some("&gt;")
    case '|' => Some("&#124;")
    case '=' => Some("&#61;")
    case '~' => Some("&#126;")
    case '\'' => Some("&#39;")
    case _ => None
  }

  /** The entity that stands for a character at the start of a line: its code point, in decimal. */
  function LineStartEntity(c: char): Option<string> {
    match c
    case '*' => Some("&#42;")
    case '#' => Some("&#35;")
    case ':' => Some("&#58;")
    case ';' => Some("&#59;")
    case ' ' => Some("&#32;")
    case _ => None
  }

  function OrSelf(entity: Option<string>, c: char): string {
    if entity.Some? then entity.value else [c]
  }

  /** `text.translate(_TRANSLATION)`. */
  function Translated(text: string): string {
    if text == "" then "" else OrSelf(CharEntity(text[0]), text[0]) + Translated(text[1..])
  }

  /** `_LINE_START.sub(...)`: the first character of each line, at the start and after each newline. */
  function LineStartsEncoded(text: string, atStart: bool): string {
    if text == "" then ""
    else (if atStart then OrSelf(LineStartEntity(text[0]), text[0]) else [text[0]])
         + LineStartsEncoded(text[1..], text[0] == '\n')
  }

  function Sanitize(text: string): string {
    LineStartsEncoded(Translated(text), true)
  }

  // ---------------------------------------------------------------- one pass over the original

  /** What one character of the original becomes. */
  function Encoded(c: char, atStart: bool): string {
    if CharEntity(c).Some? then CharEntity(c).value
    else if atStart then OrSelf(LineStartEntity(c), c)
    else [c]
  }

  function Encode(text: string, atStart: bool): string {
    if text == "" then "" else Encoded(text[0], atStart) + Encode(text[1..], text[0] == '\n')
  }

  /** One character that the line-start pass leaves alone. */
  lemma CharUntouched(c: char, rest: string, atStart: bool)
    requires c != '\n' && (atStart ==> LineStartEntity(c).None?)
    ensures LineStartsEncoded([c] + rest, atStart) == [c] + LineStartsEncoded(rest, false)
  {
    assert ([c] + rest)[1..] == rest;
  }

  /** Text without a newline, not at the start of a line, passes the line-start pass untouched. */
  lemma {:induction false} MidLineUntouched(word: string, rest: string, atStart: bool)
    requires word != "" && forall k :: 0 <= k < |word| ==> word[k] != '\n'
    requires atStart ==> LineStartEntity(word[0]).None?
    ensures LineStartsEncoded(word + rest, atStart) == word + LineStartsEncoded(rest, false)
  {
    CharUntouched(word[0], word[1..] + rest, atStart);
    assert word + rest == [word[0]] + (word[1..] + rest);
    assert word == [word[0]] + word[1..];
    if |word| > 1 {
      MidLineUntouched(word[1..], rest, false);
    } else {
      assert word[1..] + rest == rest;
    }
  }

  lemma EntityShape(c: char)
    requires CharEntity(c).Some?
    ensures var e := CharEntity(c).value;
      && e != "" && e[0] == '&' && LineStartEntity(e[0]).None?
      && forall k :: 0 <= k < |e| ==> e[k] != '\n'
  {
  }

  /** The two passes are one: no entity starts a line with a character the second pass would touch. */
  lemma {:induction false} TwoPassesAreOne(text: string, atStart: bool)
    ensures LineStartsEncoded(Translated(text), atStart) == Encode(text, atStart)
  {
    if text != "" {
      TwoPassesAreOne(text[1..], text[0] == '\n');
      if CharEntity(text[0]).Some? {
        EntityShape(text[0]);
        MidLineUntouched(CharEntity(text[0]).value, Translated(text[1..]), atStart);
      } else {
        assert ([text[0]] + Translated(text[1..]))[1..] == Translated(text[1..]);
      }
    }
  }

  // ---------------------------------------------------------------- decoding

  datatype Entity = Entity(code: string, meaning: char)

  /** Every entity the sanitizer emits. */
  const ENTITIES := [
    Entity("&amp;", '&'), Entity("&#123;", '{'), Entity("&#125;", '}'), Entity("&#91;", '['),
    Entity("&#93;", ']'), Entity("&lt;", '<'), Entity("&gt;", '>'), Entity("&#124;", '|'),
    Entity("&#61;", '='), Entity("&#126;", '~'), Entity("&#39;", '\''), Entity("&#42;", '*'),
    Entity("&#35;", '#'), Entity("&#58;", ':'), Entity("&#59;", ';'), Entity("&#32;", ' ')]

  /** The first listed entity that `s` begins with. */
  function Recognize(s: string, from: nat): Option<Entity>
    requires from <= |ENTITIES|
    decreases |ENTITIES| - from
  {
    if from == |ENTITIES| then None
    else if ENTITIES[from].code <= s then Some(ENTITIES[from])
    else Recognize(s, from + 1)
  }

  /** One pass from the left: an entity reads as its character, anything else as itself. */
  function Decode(s: string): string
    decreases |s|
  {
    if s == "" then ""
    else match Recognize(s, 0)
      case Some(e) => if e.code == "" || |e.code| > |s| then "" else [e.meaning] + Decode(s[|e.code|..])
      case None => [s[0]] + Decode(s[1..])
  }

  lemma RecognizeIndex(s: string, from: nat, at: nat)
    requires from <= at < |ENTITIES| && ENTITIES[at].code <= s
    requires forall i :: from <= i < at ==> !(ENTITIES[i].code <= s)
    ensures Recognize(s, from) == Some(ENTITIES[at])
    decreases at - from
  {
    if from < at {
      RecognizeIndex(s, from + 1, at);
    }
  }

  lemma RecognizeNothing(s: string, from: nat)
    requires from <= |ENTITIES| && s != "" && s[0] != '&'
    ensures Recognize(s, from).None?
    decreases |ENTITIES| - from
  {
    if from < |ENTITIES| {
      assert ENTITIES[from].code[0] == '&';
      RecognizeNothing(s, from + 1);
    }
  }

  /** No entity is the beginning of another. */
  lemma PrefixFree(i: nat, j: nat)
    requires i < |ENTITIES| && j < |ENTITIES| && i != j
    ensures exists k ::
      0 <= k < |ENTITIES[i].code| && k < |ENTITIES[j].code| && ENTITIES[i].code[k] != ENTITIES[j].code[k]
  {
    var a, b := ENTITIES[i].code, ENTITIES[j].code;
    if a[1] == b[1] && a[2] == b[2] {
      if a[3] == b[3] {
        assert a[4] != b[4];
      }
    }
  }

  /** Text that begins with one entity begins with no other. */
  lemma NotAlso(i: nat, at: nat, rest: string)
    requires i < |ENTITIES| && at < |ENTITIES| && i != at
    ensures !(ENTITIES[i].code <= ENTITIES[at].code + rest)
  {
    PrefixFree(i, at);
    var a, b := ENTITIES[i].code, ENTITIES[at].code;
    var k :| 0 <= k < |a| && k < |b| && a[k] != b[k];
    assert (b + rest)[k] == b[k];
  }

  lemma RecognizeEntity(at: nat, rest: string)
    requires at < |ENTITIES|
    ensures Recognize(ENTITIES[at].code + rest, 0) == Some(ENTITIES[at])
  {
    var s := ENTITIES[at].code + rest;
    forall i | 0 <= i < at
      ensures !(ENTITIES[i].code <= s)
    {
      NotAlso(i, at, rest);
    }
    assert ENTITIES[at].code <= s;
    RecognizeIndex(s, 0, at);
  }

  /** One recognized entity decodes to its character, and the rest after it. */
  lemma DecodeRecognized(e: Entity, rest: string)
    requires e.code != "" && Recognize(e.code + rest, 0) == Some(e)
    ensures Decode(e.code + rest) == [e.meaning] + Decode(rest)
  {
    assert (e.code + rest)[|e.code|..] == rest;
  }

  lemma DecodeEntity(at: nat, rest: string)
    requires at < |ENTITIES|
    ensures Decode(ENTITIES[at].code + rest) == [ENTITIES[at].meaning] + Decode(rest)
  {
    RecognizeEntity(at, rest);
    DecodeRecognized(ENTITIES[at], rest);
  }

  /** Where the entity of a character sits in the list. */
  function EntityIndex(c: char): nat {
    match c
    case '&' => 0 case '{' => 1 case '}' => 2 case '[' => 3 case ']' => 4 case '<' => 5 case '>' => 6
    case '|' => 7 case '=' => 8 case '~' => 9 case '\'' => 10 case '*' => 11 case '#' => 12
    case ':' => 13 case ';' => 14 case ' ' => 15 case _ => 16
  }

  lemma EncodedIsListed(c: char, atStart: bool)
    ensures Encoded(c, atStart) == [c] ==> c != '&'
    ensures Encoded(c, atStart) != [c] ==>
      EntityIndex(c) < |ENTITIES| && ENTITIES[EntityIndex(c)] == Entity(Encoded(c, atStart), c)
  {
  }

  lemma DecodeEncoded(c: char, atStart: bool, rest: string)
    ensures Decode(Encoded(c, atStart) + rest) == [c] + Decode(rest)
  {
    EncodedIsListed(c, atStart);
    if Encoded(c, atStart) == [c] {
      RecognizeNothing([c] + rest, 0);
      assert ([c] + rest)[1..] == rest;
    } else {
      DecodeEntity(EntityIndex(c), rest);
    }
  }

  lemma {:induction false} DecodeEncode(text: string, atStart: bool)
    ensures Decode(Encode(text, atStart)) == text
  {
    if text != "" {
      DecodeEncode(text[1..], text[0] == '\n');
      DecodeEncoded(text[0], atStart, Encode(text[1..], text[0] == '\n'));
    }
  }

  // ---------------------------------------------------------------- the promises

  /** What wikitext gives a meaning to anywhere: templates, links, tags, tables, headings, signatures, quotes. */
  const STRUCTURE := {'{', '}', '[', ']', '<', '>', '|', '=', '~', '\''}

  /** The characters it gives a meaning to at the start of a line: lists, indentation, definitions, preformatting. */
  const BLOCK := {'*', '#', ':', ';', ' '}

  predicate Structural(c: char) {
    c in STRUCTURE
  }

  predicate BlockMarkup(c: char) {
    c in BLOCK
  }

  ghost predicate NoStructure(s: string) {
    forall k :: 0 <= k < |s| ==> !Structural(s[k])
  }

  /** No character after a newline opens a block. */
  ghost predicate NoBlocks(s: string) {
    forall k :: 0 < k < |s| && s[k - 1] == '\n' ==> !BlockMarkup(s[k])
  }

  /** No structure character anywhere, and none that opens a block at the start of any line. */
  ghost predicate Neutral(s: string) {
    NoStructure(s) && NoBlocks(s) && (s != "" ==> !BlockMarkup(s[0]))
  }

  lemma EncodedNeutral(c: char, atStart: bool)
    ensures var e := Encoded(c, atStart);
      && e != "" && NoStructure(e)
      && (atStart ==> !BlockMarkup(e[0]))
      && (|e| > 1 ==> forall k :: 0 <= k < |e| ==> e[k] != '\n')
      && (|e| == 1 ==> e == [c])
      && (c == '\n' ==> e == "\n")
  {
    if CharEntity(c).Some? {
      CharEntityNeutral(c);
    } else if atStart && LineStartEntity(c).Some? {
      LineStartEntityNeutral(c);
    }
  }

  /** What entities are written with. */
  predicate EntityChar(c: char) {
    c == '&' || c == '#' || c == ';' || '0' <= c <= '9' || 'a' <= c <= 'z'
  }

  /** An entity: more than a character, and nothing in it that means structure, a block or a new line. */
  ghost predicate Harmless(e: string) {
    |e| > 1 && NoStructure(e) && !BlockMarkup(e[0]) && forall k :: 0 <= k < |e| ==> e[k] != '\n'
  }

  lemma WrittenAsEntity(e: string)
    requires |e| > 1 && e[0] == '&' && forall k :: 0 <= k < |e| ==> EntityChar(e[k])
    ensures Harmless(e)
  {
    forall k | 0 <= k < |e| ensures !Structural(e[k]) && e[k] != '\n' {
      assert EntityChar(e[k]);
    }
  }

  lemma CharEntityNeutral(c: char)
    requires CharEntity(c).Some?
    ensures Harmless(CharEntity(c).value) && c != '\n'
  {
    WrittenAsEntity(CharEntity(c).value);
  }

  lemma LineStartEntityNeutral(c: char)
    requires LineStartEntity(c).Some?
    ensures Harmless(LineStartEntity(c).value) && c != '\n'
  {
    WrittenAsEntity(LineStartEntity(c).value);
  }

  lemma {:induction false} EncodeNeutral(text: string, atStart: bool)
    ensures var s := Encode(text, atStart);
      NoStructure(s) && NoBlocks(s) && (atStart && s != "" ==> !BlockMarkup(s[0]))
  {
    if text != "" {
      var piece, rest := Encoded(text[0], atStart), Encode(text[1..], text[0] == '\n');
      EncodedNeutral(text[0], atStart);
      EncodeNeutral(text[1..], text[0] == '\n');
      NeutralConcat(piece, rest);
    }
  }

  lemma NeutralConcat(piece: string, rest: string)
    requires piece != "" && NoStructure(piece) && NoStructure(rest) && NoBlocks(rest)
    requires |piece| > 1 ==> forall k :: 0 <= k < |piece| ==> piece[k] != '\n'
    requires piece[|piece| - 1] == '\n' && rest != "" ==> !BlockMarkup(rest[0])
    ensures NoStructure(piece + rest) && NoBlocks(piece + rest)
  {
    var s, n := piece + rest, |piece|;
    forall k | n < k < |s| && s[k - 1] == '\n'
      ensures !BlockMarkup(s[k])
    {
      assert rest[k - n - 1] == s[k - 1] && rest[k - n] == s[k];
    }
  }

  function DigitValue(c: char): int {
    c as int - '0' as int
  }

  /** `code` is the reference, in two or three decimal digits, of the character numbered `n`. */
  predicate IsReference(code: string, n: nat) {
    && 5 <= |code| <= 6 && code[0] == '&' && code[1] == '#' && code[|code| - 1] == ';'
    && (forall k :: 2 <= k < |code| - 1 ==> 0 <= DigitValue(code[k]) <= 9)
    && n == if |code| == 5 then 10 * DigitValue(code[2]) + DigitValue(code[3])
            else 100 * DigitValue(code[2]) + 10 * DigitValue(code[3]) + DigitValue(code[4])
  }

  /** Every entity is the one HTML gives the character: its number, or one of three names. */
  lemma EntitiesAreHtml(at: nat)
    requires at < |ENTITIES|
    ensures var e := ENTITIES[at];
      || e == Entity("&amp;", '&') || e == Entity("&lt;", '<') || e == Entity("&gt;", '>')
      || IsReference(e.code, e.meaning as int)
  {
  }

  /** Nothing to neutralize: no ampersand, no structure, no block markup at the start of a line. */
  ghost predicate Plain(text: string, atStart: bool) {
    && '&' !in text && NoStructure(text) && NoBlocks(text)
    && (atStart && text != "" ==> !BlockMarkup(text[0]))
  }

  lemma PlainStep(text: string, atStart: bool)
    requires text != ""
    ensures Plain(text, atStart) <==>
      && text[0] != '&' && !Structural(text[0]) && (atStart ==> !BlockMarkup(text[0]))
      && Plain(text[1..], text[0] == '\n')
  {
    assert text == [text[0]] + text[1..];
    if Plain(text[1..], text[0] == '\n') {
      forall k | 0 < k < |text| && text[k - 1] == '\n' ensures k > 1 ==> !BlockMarkup(text[k]) {
        assert k > 1 ==> text[1..][k - 2] == '\n' && text[1..][k - 1] == text[k];
      }
    }
  }

  lemma EncodedUnchanged(c: char, atStart: bool)
    ensures Encoded(c, atStart) == [c] <==> c != '&' && !Structural(c) && (atStart ==> !BlockMarkup(c))
    ensures |Encoded(c, atStart)| == 1 <==> Encoded(c, atStart) == [c]
    ensures |Encoded(c, atStart)| >= 1
  {
  }

  lemma {:induction false} EncodeLonger(text: string, atStart: bool)
    ensures |Encode(text, atStart)| >= |text|
    ensures Encode(text, atStart) == text <==> Plain(text, atStart)
  {
    if text != "" {
      var rest := Encode(text[1..], text[0] == '\n');
      EncodeLonger(text[1..], text[0] == '\n');
      EncodedUnchanged(text[0], atStart);
      PlainStep(text, atStart);
      assert text == [text[0]] + text[1..];
      if Encode(text, atStart) == text {
        assert |Encoded(text[0], atStart)| == 1;
        assert rest == (Encoded(text[0], atStart) + rest)[1..];
      }
    }
  }

  /** Text is left alone exactly when there is nothing in it to neutralize. */
  lemma UnchangedExactly(text: string)
    ensures Sanitize(text) == text <==> Plain(text, true)
  {
    TwoPassesAreOne(text, true);
    EncodeLonger(text, true);
  }

  /** Publishing loses nothing and lets no structure through: the text decodes back, and no line can start a block. */
  lemma SanitizeIsNeutralAndInvertible(text: string)
    ensures Decode(Sanitize(text)) == text
    ensures Neutral(Sanitize(text))
  {
    TwoPassesAreOne(text, true);
    DecodeEncode(text, true);
    EncodeNeutral(text, true);
  }

  // ---------------------------------------------------------------- discussion lines

  function Colons(depth: nat): string {
    if depth == 0 then "" else ":" + Colons(depth - 1)
  }

  /** `text.replace("\n", "<br>")`. */
  function Broken(text: string): string {
    if text == "" then ""
    else (if text[0] == '\n' then "<br>" else [text[0]]) + Broken(text[1..])
  }

  function DiscussionLine(depth: nat, text: string, signature: string): string {
    Colons(depth) + " " + Broken(text) + (if signature != "" then " --" + signature else "")
  }

  /** `body.split("<br>")`, joined again with newlines. */
  function Unbroken(s: string): string
    decreases |s|
  {
    if s == "" then ""
    else if "<br>" <= s then "\n" + Unbroken(s[4..])
    else [s[0]] + Unbroken(s[1..])
  }

  lemma {:induction false} ColonsLength(depth: nat)
    ensures |Colons(depth)| == depth && forall k :: 0 <= k < depth ==> Colons(depth)[k] == ':'
  {
    if depth > 0 {
      ColonsLength(depth - 1);
    }
  }

  lemma {:induction false} BrokenHasNoNewline(text: string)
    ensures forall k :: 0 <= k < |Broken(text)| ==> Broken(text)[k] != '\n'
  {
    if text != "" {
      BrokenHasNoNewline(text[1..]);
    }
  }

  lemma {:induction false} UnbrokenBroken(text: string)
    requires forall k :: 0 <= k < |text| ==> text[k] != '<'
    ensures Unbroken(Broken(text)) == text
  {
    if text != "" {
      UnbrokenBroken(text[1..]);
      var s := Broken(text);
      if text[0] == '\n' {
        assert s[..4] == "<br>" && s[4..] == Broken(text[1..]);
      } else {
        assert s[0] == text[0] && s[1..] == Broken(text[1..]);
        assert "<br>"[0] != s[0];
      }
    }
  }

  /**
   A recorded message becomes one physical line with exactly `depth` leading colons; taking off the
   indentation and the signature, splitting on `<br>` and decoding gives the message back.
   */
  lemma DiscussionLineInvertible(depth: nat, message: string, signature: string)
    requires forall k :: 0 <= k < |signature| ==> signature[k] != '\n'
    ensures var line := DiscussionLine(depth, Sanitize(message), signature);
      && (forall k :: 0 <= k < |line| ==> line[k] != '\n')
      && |line| > depth && line[depth] == ' ' && (forall k :: 0 <= k < depth ==> line[k] == ':')
      && var tail := if signature != "" then |signature| + 3 else 0;
      && depth + 1 + tail <= |line|
      && Decode(Unbroken(line[depth + 1..|line| - tail])) == message
  {
    var text := Sanitize(message);
    var line := DiscussionLine(depth, text, signature);
    SanitizeIsNeutralAndInvertible(message);
    assert Structural('<');
    ColonsLength(depth);
    BrokenHasNoNewline(text);
    UnbrokenBroken(text);
    var sign := if signature != "" then " --" + signature else "";
    assert line == (Colons(depth) + " ") + Broken(text) + sign;
    assert line[depth + 1..|line| - |sign|] == Broken(text);
  }
}
