/** Channel-operator tracking: MODE flag/argument pairing, NAMES prefixes, and the grant history. */
module ChannelOps {
  import opened Basics

  /** Flags whose prefix conveys authority, and all flags that take an argument (section 4.2.3.1 of RFC 1459). */
  const OP_FLAGS := {'o', 'a', 'q'}
  const ARG_FLAGS := {'o', 'a', 'q', 'v', 'h', 'k', 'b', 'e', 'I'}
  const OP_PREFIXES := {'@', '&', '~'}
  const ALL_PREFIXES := {'@', '&', '~', '%', '+', '!'}

  // ---------------------------------------------------------------- pairing flags with arguments

  predicate IsSign(flag: char) {
    flag == '+' || flag == '-'
  }

  /** Whether the `n`-th flag is read under a plus: what the last sign before it says, plus when there is none. */
  function Adding(flags: string, n: nat): bool
    requires n <= |flags|
  {
    if n == 0 then true
    else if IsSign(flags[n - 1]) then flags[n - 1] == '+'
    else Adding(flags, n - 1)
  }

  /** Whether the `n`-th flag consumes an argument; `l` does only when being set. */
  predicate TakesArgument(flags: string, n: nat)
    requires n < |flags|
  {
    !IsSign(flags[n]) && (flags[n] in ARG_FLAGS || (flags[n] == 'l' && Adding(flags, n)))
  }

  /** How many of the first `n` flags consume an argument: the place of the argument of flag `n`. */
  function ArgumentsBefore(flags: string, n: nat): nat
    requires n <= |flags|
  {
    if n == 0 then 0 else ArgumentsBefore(flags, n - 1) + (if TakesArgument(flags, n - 1) then 1 else 0)
  }

  predicate IsOpFlag(flags: string, n: nat)
    requires n < |flags|
  {
    flags[n] in OP_FLAGS
  }

  /** The operator changes of the first `n` flags, each with the argument at its flag's own place. */
  function Changes(flags: string, arguments: seq<string>, n: nat): seq<(string, bool)>
    requires n <= |flags| && ArgumentsBefore(flags, n) <= |arguments|
  {
    if n == 0 then []
    else Changes(flags, arguments, n - 1)
         + (if IsOpFlag(flags, n - 1) then [(arguments[ArgumentsBefore(flags, n - 1)], Adding(flags, n - 1))] else [])
  }

  /** The line is applied exactly when its flags consume exactly the arguments sent. */
  function Pairing(flags: string, arguments: seq<string>): Option<seq<(string, bool)>> {
    if ArgumentsBefore(flags, |flags|) == |arguments| then Some(Changes(flags, arguments, |flags|)) else None
  }

  lemma {:induction false} ArgumentsGrow(flags: string, m: nat, n: nat)
    requires m <= n <= |flags|
    ensures ArgumentsBefore(flags, m) <= ArgumentsBefore(flags, n)
    decreases n
  {
    if m < n {
      ArgumentsGrow(flags, m, n - 1);
    }
  }

  /** `_parse_mode`: succeeds exactly when the sign-aware count matches, and pairs each flag with its own argument. */
  method ParseMode(flags: string, arguments: seq<string>) returns (pending: Option<seq<(string, bool)>>)
    ensures pending == Pairing(flags, arguments)
  {
    var changes: seq<(string, bool)>, adding, index := [], true, 0;
    for n := 0 to |flags|
      invariant adding == Adding(flags, n)
      invariant index == ArgumentsBefore(flags, n) <= |arguments|
      invariant changes == Changes(flags, arguments, n)
    {
      var flag := flags[n];
      if flag == '+' || flag == '-' {
        adding := flag == '+';
        continue;
      }
      if flag !in ARG_FLAGS && !(flag == 'l' && adding) {
        continue;
      }
      if index >= |arguments| {
        ArgumentsGrow(flags, n + 1, |flags|);
        return None;
      }
      if flag in OP_FLAGS {
        changes := changes + [(arguments[index], adding)];
      }
      index := index + 1;
    }
    pending := if index == |arguments| then Some(changes) else None;
  }

  /** Every operator flag makes a change: the argument at its own place, with its own sign, after those before it. */
  lemma {:induction false} EveryOpFlagChanges(flags: string, arguments: seq<string>, n: nat, at: nat)
    requires at < n <= |flags| && ArgumentsBefore(flags, n) <= |arguments| && IsOpFlag(flags, at)
    ensures ArgumentsBefore(flags, at) < |arguments| && |Changes(flags, arguments, at)| < |Changes(flags, arguments, n)|
    ensures Changes(flags, arguments, n)[|Changes(flags, arguments, at)|]
      == (arguments[ArgumentsBefore(flags, at)], Adding(flags, at))
  {
    ArgumentsGrow(flags, at + 1, n);
    if at < n - 1 {
      EveryOpFlagChanges(flags, arguments, n - 1, at);
    }
  }

  /** Every change comes from an operator flag, and names the argument whose place is that flag's own count. */
  lemma {:induction false} ChangesPairOwnArgument(flags: string, arguments: seq<string>, n: nat, k: nat)
      returns (at: nat)
    requires n <= |flags| && ArgumentsBefore(flags, n) <= |arguments|
    requires k < |Changes(flags, arguments, n)|
    ensures at < n && IsOpFlag(flags, at) && ArgumentsBefore(flags, at) < |arguments|
    ensures Changes(flags, arguments, n)[k] == (arguments[ArgumentsBefore(flags, at)], Adding(flags, at))
    ensures ArgumentsBefore(flags, at) <= |arguments| && |Changes(flags, arguments, at)| == k
  {
    if k < |Changes(flags, arguments, n - 1)| {
      at := ChangesPairOwnArgument(flags, arguments, n - 1, k);
    } else {
      at := n - 1;
    }
  }

  // ---------------------------------------------------------------- what the letters and signs mean

  predicate SignFree(word: string) {
    forall k :: 0 <= k < |word| ==> word[k] != '+' && word[k] != '-'
  }

  /** How many of the first `n` letters of a word take an argument when the word is read under `sign`. */
  function LettersWithArgument(word: string, sign: char, n: nat): nat
    requires n <= |word|
  {
    if n == 0 then 0
    else
      var c := word[n - 1];
      var takes := || c == 'o' || c == 'a' || c == 'q' || c == 'v' || c == 'h'
                   || c == 'k' || c == 'b' || c == 'e' || c == 'I' || (c == 'l' && sign == '+');
      LettersWithArgument(word, sign, n - 1) + (if takes then 1 else 0)
  }

  /** A word without signs, after `pre` and a sign: its letters are read under that sign, and counted from there. */
  lemma {:induction false} WordUnderSign(flags: string, pre: string, sign: char, word: string, rest: string, j: nat)
    requires flags == pre + [sign] + word + rest && (sign == '+' || sign == '-') && SignFree(word) && j <= |word|
    ensures Adding(flags, |pre| + 1 + j) <==> sign == '+'
    ensures ArgumentsBefore(flags, |pre| + 1 + j) == ArgumentsBefore(flags, |pre|) + LettersWithArgument(word, sign, j)
  {
    assert flags[|pre|] == sign;
    if j > 0 {
      WordUnderSign(flags, pre, sign, word, rest, j - 1);
      assert flags[|pre| + j] == word[j - 1];
    } else {
      assert Adding(flags, |pre| + 1) <==> sign == '+';
    }
  }

  /** The same for the letters before any sign: they are read as set. */
  lemma {:induction false} WordBeforeSigns(flags: string, word: string, rest: string, j: nat)
    requires flags == word + rest && SignFree(word) && j <= |word|
    ensures Adding(flags, j) && ArgumentsBefore(flags, j) == LettersWithArgument(word, '+', j)
  {
    if j > 0 {
      WordBeforeSigns(flags, word, rest, j - 1);
      assert flags[j - 1] == word[j - 1];
    }
  }

  predicate OpLetter(c: char) {
    c == 'o' || c == 'a' || c == 'q'
  }

  /**
   Plus grants and minus revokes: in a line that is applied, each operator letter of a word after a
   sign makes one change, of the argument at its own count, that grants exactly when the sign is a plus.
   */
  lemma SignDecides(pre: string, sign: char, word: string, rest: string, arguments: seq<string>, j: nat)
    requires (sign == '+' || sign == '-') && SignFree(word) && j < |word| && OpLetter(word[j])
    requires Pairing(pre + [sign] + word + rest, arguments).Some?
    ensures var flags := pre + [sign] + word + rest;
      var place := ArgumentsBefore(flags, |pre|) + LettersWithArgument(word, sign, j);
      && place < |arguments|
      && (arguments[place], sign == '+') in Pairing(flags, arguments).value
  {
    var flags, at := pre + [sign] + word + rest, |pre| + 1 + j;
    WordUnderSign(flags, pre, sign, word, rest, j);
    assert flags[at] == word[j];
    EveryOpFlagChanges(flags, arguments, |flags|, at);
  }

  /** Before any sign an operator letter grants. */
  lemma UnsignedGrants(word: string, rest: string, arguments: seq<string>, j: nat)
    requires SignFree(word) && j < |word| && OpLetter(word[j]) && Pairing(word + rest, arguments).Some?
    ensures var place := LettersWithArgument(word, '+', j);
      place < |arguments| && (arguments[place], true) in Pairing(word + rest, arguments).value
  {
    var flags := word + rest;
    WordBeforeSigns(flags, word, rest, j);
    assert flags[j] == word[j];
    EveryOpFlagChanges(flags, arguments, |flags|, j);
  }

  /** Voice, half-operator and every other letter but o, a and q change no operator. */
  lemma {:induction false} OtherLettersChangeNothing(flags: string, arguments: seq<string>, n: nat)
    requires forall k :: 0 <= k < |flags| ==> !OpLetter(flags[k])
    requires n <= |flags| && ArgumentsBefore(flags, n) <= |arguments|
    ensures Changes(flags, arguments, n) == []
  {
    if n > 0 {
      OtherLettersChangeNothing(flags, arguments, n - 1);
    }
  }

  // ---------------------------------------------------------------- NAMES prefixes

  function PrefixLength(entry: string): (n: nat)
    ensures n <= |entry|
    ensures forall k :: 0 <= k < n ==> entry[k] in ALL_PREFIXES
    ensures n < |entry| ==> entry[n] !in ALL_PREFIXES
  {
    if entry != "" && entry[0] in ALL_PREFIXES then 1 + PrefixLength(entry[1..]) else 0
  }

  /** The nick of a NAMES entry, and whether any of its leading prefixes conveys authority. */
  function Stripped(entry: string): (string, bool) {
    var n := PrefixLength(entry);
    (entry[n..], exists k :: 0 <= k < n && entry[k] in OP_PREFIXES)
  }

  lemma {:induction false} PrefixIs(entry: string, n: nat)
    requires n <= |entry| && forall k :: 0 <= k < n ==> entry[k] in ALL_PREFIXES
    requires n < |entry| ==> entry[n] !in ALL_PREFIXES
    ensures PrefixLength(entry) == n
    decreases n
  {
    if n > 0 {
      assert forall k :: 0 <= k < n - 1 ==> entry[1..][k] == entry[k + 1];
      PrefixIs(entry[1..], n - 1);
    }
  }

  method StripPrefix(entry: string) returns (nick: string, isOp: bool)
    ensures (nick, isOp) == Stripped(entry)
  {
    isOp := false;
    var index := 0;
    while index < |entry| && entry[index] in ALL_PREFIXES
      invariant index <= |entry|
      invariant forall k :: 0 <= k < index ==> entry[k] in ALL_PREFIXES
      invariant isOp <==> exists k :: 0 <= k < index && entry[k] in OP_PREFIXES
    {
      isOp := isOp || entry[index] in OP_PREFIXES;
      index := index + 1;
    }
    PrefixIs(entry, index);
    nick := entry[index..];
  }

  predicate PrefixSign(c: char) {
    c == '@' || c == '&' || c == '~' || c == '%' || c == '+' || c == '!'
  }

  /** Stacked prefixes come off, and only the operator, protected and owner ones among them count. */
  lemma PrefixesComeOff(prefixes: string, nick: string)
    requires (forall k :: 0 <= k < |prefixes| ==> PrefixSign(prefixes[k])) && (nick != "" ==> !PrefixSign(nick[0]))
    ensures Stripped(prefixes + nick) == (nick, '@' in prefixes || '&' in prefixes || '~' in prefixes)
  {
    var entry := prefixes + nick;
    PrefixIs(entry, |prefixes|);
    assert entry[|prefixes|..] == nick;
    if c :| c in prefixes && (c == '@' || c == '&' || c == '~') {
      var k :| 0 <= k < |prefixes| && prefixes[k] == c;
      assert entry[k] in OP_PREFIXES;
    } else {
      forall k | 0 <= k < |prefixes| ensures entry[k] !in OP_PREFIXES {
        assert entry[k] == prefixes[k] && prefixes[k] in prefixes;
      }
    }
  }

  // ---------------------------------------------------------------- events and their effect

  datatype Event =
    | Grant(channel: string, nick: string)
    | Revoke(channel: string, nick: string)
    | Forget(nick: string)
    | ForgetChannel(channel: string)
    | Replace(channel: string, entries: seq<string>)
    | Mode(channel: string, params: seq<string>)

  type Table = map<string, set<string>>

  /** Whether `nick` holds `channel` in a table of folded names. */
  predicate Holds(ops: Table, channel: string, nick: string) {
    channel in ops && nick in ops[channel]
  }

  function Granted(ops: Table, channel: string, nick: string): Table {
    ops[channel := (if channel in ops then ops[channel] else {}) + {nick}]
  }

  function Revoked(ops: Table, channel: string, nick: string): Table {
    if channel in ops then ops[channel := ops[channel] - {nick}] else ops
  }

  /** Changes applied one after the other. */
  function Applied(fold: string -> string, ops: Table, channel: string, changes: seq<(string, bool)>): Table {
    if changes == [] then ops
    else
      var before := Applied(fold, ops, channel, changes[..|changes| - 1]);
      var (nick, adding) := changes[|changes| - 1];
      if adding then Granted(before, channel, fold(nick)) else Revoked(before, channel, fold(nick))
  }

  function Snapshot(fold: string -> string, entries: seq<string>): set<string> {
    set e | e in entries && Stripped(e).1 :: fold(Stripped(e).0)
  }

  /** What an event says about one folded channel and nick: granted, revoked, or nothing. */
  function Says(fold: string -> string, e: Event, channel: string, nick: string): Option<bool> {
    match e
    case Grant(c, n) => if fold(c) == channel && fold(n) == nick then Some(true) else None
    case Revoke(c, n) => if fold(c) == channel && fold(n) == nick then Some(false) else None
    case Forget(n) => if fold(n) == nick then Some(false) else None
    case ForgetChannel(c) => if fold(c) == channel then Some(false) else None
    case Replace(c, entries) => if fold(c) == channel then Some(nick in Snapshot(fold, entries)) else None
    case Mode(c, params) =>
      if fold(c) != channel || params == [] then None
      else match Pairing(params[0], params[1..])
        case None => None
        case Some(changes) => LastChange(fold, changes, nick)
  }

  /** The last change that names `nick`. */
  function LastChange(fold: string -> string, changes: seq<(string, bool)>, nick: string): Option<bool> {
    if changes == [] then None
    else
      var last := changes[|changes| - 1];
      if fold(last.0) == nick then Some(last.1) else LastChange(fold, changes[..|changes| - 1], nick)
  }

  /** The last event of a trace that says anything about this channel and nick granted it. */
  function LastWord(fold: string -> string, trace: seq<Event>, channel: string, nick: string): bool {
    if trace == [] then false
    else match Says(fold, trace[|trace| - 1], channel, nick)
      case Some(granted) => granted
      case None => LastWord(fold, trace[..|trace| - 1], channel, nick)
  }

  /** Event `k` granted it, and no later one took it away. */
  ghost predicate GrantStands(fold: string -> string, trace: seq<Event>, channel: string, nick: string, k: nat) {
    && k < |trace| && Says(fold, trace[k], channel, nick) == Some(true)
    && forall j :: k < j < |trace| ==> Says(fold, trace[j], channel, nick) != Some(false)
  }

  lemma StandsBefore(fold: string -> string, front: seq<Event>, e: Event, channel: string, nick: string, k: nat)
    requires Says(fold, e, channel, nick) == None && k < |front|
    ensures GrantStands(fold, front + [e], channel, nick, k) <==> GrantStands(fold, front, channel, nick, k)
  {
    assert forall j :: 0 <= j < |front| ==> (front + [e])[j] == front[j];
  }

  /** `is_op` in full: some event granted it, and none since then took it away. */
  lemma {:induction false} LastWordExactly(fold: string -> string, trace: seq<Event>, channel: string, nick: string)
    ensures LastWord(fold, trace, channel, nick) <==> exists k :: GrantStands(fold, trace, channel, nick, k)
  {
    if trace != [] {
      var front, n := trace[..|trace| - 1], |trace| - 1;
      assert trace == front + [trace[n]];
      LastWordExactly(fold, front, channel, nick);
      match Says(fold, trace[n], channel, nick)
      case Some(granted) =>
        assert GrantStands(fold, trace, channel, nick, n) <==> granted;
        assert !granted ==> forall k: nat :: k < n ==> !GrantStands(fold, trace, channel, nick, k);
      case None =>
        forall k | 0 <= k < n
          ensures GrantStands(fold, trace, channel, nick, k) <==> GrantStands(fold, front, channel, nick, k)
        {
          StandsBefore(fold, front, trace[n], channel, nick, k);
        }
        assert !GrantStands(fold, trace, channel, nick, n);
    }
  }

  lemma {:induction false} AppliedHolds(
      fold: string -> string, ops: Table, channel: string, changes: seq<(string, bool)>, c: string, nick: string)
    ensures Holds(Applied(fold, ops, channel, changes), c, nick)
            <==> if c != channel || LastChange(fold, changes, nick).None? then Holds(ops, c, nick)
                 else LastChange(fold, changes, nick).value
  {
    if changes != [] {
      AppliedHolds(fold, ops, channel, changes[..|changes| - 1], c, nick);
    }
  }

  /** What each event leaves: who is an operator after it, from who was before it. */
  lemma AfterEvent(fold: string -> string, trace: seq<Event>, e: Event, channel: string, nick: string)
    ensures var was, now := LastWord(fold, trace, channel, nick), LastWord(fold, trace + [e], channel, nick);
      match e
      case Grant(c, n) => now == (was || (fold(c) == channel && fold(n) == nick))
      case Revoke(c, n) => now == (was && !(fold(c) == channel && fold(n) == nick))
      case Forget(n) => now == (was && fold(n) != nick)
      case ForgetChannel(c) => now == (was && fold(c) != channel)
      case Replace(c, entries) =>
        now == if fold(c) == channel
               then exists entry :: entry in entries && Stripped(entry).1 && fold(Stripped(entry).0) == nick
               else was
      case Mode(c, params) => fold(c) != channel || params == [] ==> now == was
  {
    assert (trace + [e])[..|trace|] == trace;
  }

  /** One MODE line with one operator letter: it sets or clears exactly that nick in exactly that channel. */
  lemma OneLetterLine(fold: string -> string, trace: seq<Event>, c: string, sign: char, letter: char, n: string,
                      channel: string, nick: string)
    requires (sign == '+' || sign == '-') && OpLetter(letter)
    ensures LastWord(fold, trace + [Mode(c, [[sign, letter], n])], channel, nick)
      == if fold(c) == channel && fold(n) == nick then sign == '+' else LastWord(fold, trace, channel, nick)
  {
    var e := Mode(c, [[sign, letter], n]);
    assert e.params[0] == [sign, letter] && e.params[1..] == [n] && (trace + [e])[..|trace|] == trace;
    OneLetterPairs(sign, letter, n);
    OneChange(fold, n, sign == '+', nick);
  }

  lemma OneLetterPairs(sign: char, letter: char, n: string)
    requires (sign == '+' || sign == '-') && OpLetter(letter)
    ensures Pairing([sign, letter], [n]) == Some([(n, sign == '+')])
  {
    var flags := [sign, letter];
    assert flags[0] == sign && flags[1] == letter;
    assert ArgumentsBefore(flags, 0) == 0;
    assert ArgumentsBefore(flags, 1) == 0;
    assert Adding(flags, 1) == (sign == '+');
    assert ArgumentsBefore(flags, 2) == 1;
    assert Changes(flags, [n], 0) == [];
    assert Changes(flags, [n], 1) == [];
    assert IsOpFlag(flags, 1) && Changes(flags, [n], 2) == [] + [([n][0], Adding(flags, 1))];
    assert [] + [(n, sign == '+')] == [(n, sign == '+')];
    assert |flags| == 2;
  }

  lemma OneChange(fold: string -> string, n: string, adding: bool, nick: string)
    ensures LastChange(fold, [(n, adding)], nick) == if fold(n) == nick then Some(adding) else None
  {
    assert [(n, adding)][..0] == [];
  }

  /** A line without an operator letter leaves every operator as it was. */
  lemma VoiceChangesNobody(fold: string -> string, trace: seq<Event>, c: string, flags: string, arguments: seq<string>,
                           channel: string, nick: string)
    requires forall k :: 0 <= k < |flags| ==> !OpLetter(flags[k])
    ensures LastWord(fold, trace + [Mode(c, [flags] + arguments)], channel, nick)
      == LastWord(fold, trace, channel, nick)
  {
    var e := Mode(c, [flags] + arguments);
    assert e.params[0] == flags && e.params[1..] == arguments && (trace + [e])[..|trace|] == trace;
    if Pairing(flags, arguments).Some? {
      OtherLettersChangeNothing(flags, arguments, |flags|);
    }
  }

  // ---------------------------------------------------------------- the object

  class ChannelOps {
    const fold: string -> string // str.casefold
    var ops: Table
    ghost var trace: seq<Event>

    /** The tracker answers for every channel and nick what the last relevant event said. */
    ghost predicate Valid()
      reads this
    {
      forall channel, nick :: Holds(ops, channel, nick) <==> LastWord(fold, trace, channel, nick)
    }

    constructor (fold: string -> string)
      ensures Valid() && trace == [] && this.fold == fold
    {
      this.fold := fold;
      ops, trace := map[], [];
    }

    method IsOp(channel: string, nick: string) returns (isOp: bool)
      requires Valid()
      ensures isOp <==> LastWord(fold, trace, fold(channel), fold(nick))
    {
      isOp := fold(channel) in ops && fold(nick) in ops[fold(channel)];
      assert isOp <==> Holds(ops, fold(channel), fold(nick));
    }

    method Grant(channel: string, nick: string)
      requires Valid()
      modifies this
      ensures Valid() && trace == old(trace) + [Event.Grant(channel, nick)]
    {
      ops := Granted(ops, fold(channel), fold(nick));
      trace := trace + [Event.Grant(channel, nick)];
      assert trace[..|trace| - 1] == old(trace);
    }

    method Revoke(channel: string, nick: string)
      requires Valid()
      modifies this
      ensures Valid() && trace == old(trace) + [Event.Revoke(channel, nick)]
    {
      ops := Revoked(ops, fold(channel), fold(nick));
      trace := trace + [Event.Revoke(channel, nick)];
      assert trace[..|trace| - 1] == old(trace);
    }

    method Forget(nick: string)
      requires Valid()
      modifies this
      ensures Valid() && trace == old(trace) + [Event.Forget(nick)]
    {
      var folded := fold(nick);
      var left := ops.Keys;
      while left != {}
        invariant left <= ops.Keys == old(ops).Keys
        invariant forall c :: c in ops ==> ops[c] == if c in left then old(ops)[c] else old(ops)[c] - {folded}
        invariant trace == old(trace)
        decreases left
      {
        var c :| c in left;
        ops, left := ops[c := ops[c] - {folded}], left - {c};
      }
      trace := trace + [Event.Forget(nick)];
      assert trace[..|trace| - 1] == old(trace);
    }

    method ForgetChannel(channel: string)
      requires Valid()
      modifies this
      ensures Valid() && trace == old(trace) + [Event.ForgetChannel(channel)]
    {
      ops := ops - {fold(channel)};
      trace := trace + [Event.ForgetChannel(channel)];
      assert trace[..|trace| - 1] == old(trace);
    }

    method Replace(channel: string, entries: seq<string>)
      requires Valid()
      modifies this
      ensures Valid() && trace == old(trace) + [Event.Replace(channel, entries)]
    {
      var holders: set<string> := {};
      for n := 0 to |entries|
        invariant holders == Snapshot(fold, entries[..n])
        invariant trace == old(trace) && ops == old(ops)
      {
        assert entries[..n + 1] == entries[..n] + [entries[n]];
        var nick, isOp := StripPrefix(entries[n]);
        SnapshotAppend(fold, entries[..n], entries[n]);
        if isOp {
          holders := holders + {fold(nick)};
        }
      }
      assert entries[..|entries|] == entries;
      ops := ops[fold(channel) := holders];
      trace := trace + [Event.Replace(channel, entries)];
      assert trace[..|trace| - 1] == old(trace);
    }

    /** One MODE line: applied whole, or not at all when its pairing is unsound. */
    method ApplyMode(channel: string, params: seq<string>)
      requires Valid()
      modifies this
      ensures Valid() && trace == old(trace) + [Mode(channel, params)]
      ensures params == [] || Pairing(params[0], params[1..]).None? ==> ops == old(ops)
    {
      trace := trace + [Mode(channel, params)];
      assert trace[..|trace| - 1] == old(trace);
      if params == [] {
        return;
      }
      var pending := ParseMode(params[0], params[1..]);
      if pending.None? {
        return;
      }
      var changes := pending.value;
      for n := 0 to |changes|
        invariant ops == Applied(fold, old(ops), fold(channel), changes[..n])
        invariant trace == old(trace) + [Mode(channel, params)]
      {
        assert changes[..n + 1][..n] == changes[..n];
        var (nick, adding) := changes[n];
        ops := if adding then Granted(ops, fold(channel), fold(nick)) else Revoked(ops, fold(channel), fold(nick));
      }
      assert changes[..|changes|] == changes;
      forall c, nick
        ensures Holds(ops, c, nick) <==> LastWord(fold, trace, c, nick)
      {
        AppliedHolds(fold, old(ops), fold(channel), changes, c, nick);
        assert Holds(old(ops), c, nick) <==> LastWord(fold, old(trace), c, nick);
      }
    }
  }

  lemma SnapshotAppend(fold: string -> string, entries: seq<string>, entry: string)
    ensures Snapshot(fold, entries + [entry])
            == Snapshot(fold, entries) + (if Stripped(entry).1 then {fold(Stripped(entry).0)} else {})
  {
  }
}
