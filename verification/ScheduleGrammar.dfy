/** The schedule tokens of the action grammar: parsing and printing. */
module ScheduleGrammar {
  import opened Basics
  import opened Models

  const WEEKDAY_TOKENS := ["mon", "tue", "wed", "thu", "fri", "sat", "sun"]

  datatype ParseError = ZeroInterval | BadTime | BadWeekday | UnknownSchedule

  // ---------------------------------------------------------------- numbers

  predicate IsDigit(c: char) {
    '0' <= c <= '9'
  }

  predicate AllDigits(s: string) {
    forall k :: 0 <= k < |s| ==> IsDigit(s[k])
  }

  function Digit(n: nat): (c: char)
    requires n < 10
    ensures IsDigit(c)
  {
    n as char + '0'
  }

  function DigitValue(c: char): nat
    requires IsDigit(c)
  {
    c as int - '0' as int
  }

  /** Decimal digits without leading zeros. */
  function Decimal(n: nat): string {
    if n < 10 then [Digit(n)] else Decimal(n / 10) + [Digit(n % 10)]
  }

  /** `int(digits)`. */
  function Number(s: string): nat
    requires AllDigits(s)
  {
    if s == "" then 0 else Number(s[..|s| - 1]) * 10 + DigitValue(s[|s| - 1])
  }

  lemma {:induction false} DecimalReads(n: nat)
    ensures Decimal(n) != "" && AllDigits(Decimal(n)) && Number(Decimal(n)) == n
  {
    var s := Decimal(n);
    if n < 10 {
      assert s[..0] == "";
    } else {
      DecimalReads(n / 10);
      assert s[..|s| - 1] == Decimal(n / 10);
    }
  }

  /** Two digits, as `{n:02d}` prints a number below a hundred. */
  function TwoDigits(n: int): string
    requires 0 <= n < 100
  {
    [Digit(n / 10), Digit(n % 10)]
  }

  // ---------------------------------------------------------------- parsing

  /** `$` also matches before one final newline. */
  function Chomp(s: string): string {
    if s != "" && s[|s| - 1] == '\n' then s[..|s| - 1] else s
  }

  /** The digits of `every:<digits>h`. */
  function EveryDigits(token: string): Option<string> {
    var t := Chomp(token);
    if |t| > 7 && t[..6] == "every:" && t[|t| - 1] == 'h' && AllDigits(t[6..|t| - 1])
    then Some(t[6..|t| - 1]) else None
  }

  predicate IsHour(s: string) {
    || (|s| == 1 && IsDigit(s[0]))
    || (|s| == 2 && (s[0] == '0' || s[0] == '1') && IsDigit(s[1]))
    || (|s| == 2 && s[0] == '2' && '0' <= s[1] <= '3')
  }

  predicate IsMinute(s: string) {
    |s| == 2 && '0' <= s[0] <= '5' && IsDigit(s[1])
  }

  function ParseTime(value: string): Result<(int, int), ParseError> {
    match CutAt(Chomp(value), ':')
    case Some((hour, minute)) =>
      if IsHour(hour) && IsMinute(minute) then Ok((Number(hour), Number(minute))) else Err(BadTime)
    case None => Err(BadTime)
  }

  function IndexOf(tokens: seq<string>, day: string): Option<nat> {
    if tokens == [] then None
    else if tokens[|tokens| - 1] == day && day !in tokens[..|tokens| - 1] then Some(|tokens| - 1)
    else IndexOf(tokens[..|tokens| - 1], day)
  }

  function ParseSchedule(token: string): Result<Schedule, ParseError> {
    match EveryDigits(token)
    case Some(digits) =>
      if Number(digits) == 0 then Err(ZeroInterval) else Ok(Schedule(Every, Number(digits), 0, 0, 0))
    case None =>
      match CutAt(token, '@')
      case None => Err(UnknownSchedule)
      case Some((kind, rest)) =>
        if kind == "daily" then
          match ParseTime(rest)
          case Ok((hour, minute)) => Ok(Schedule(Daily, 0, hour, minute, 0))
          case Err(e) => Err(e)
        else if kind == "weekly" then ParseWeekly(rest)
        else Err(UnknownSchedule)
  }

  /** What follows `weekly@`. */
  function ParseWeekly(rest: string): Result<Schedule, ParseError> {
    match CutAt(rest, '.')
    case None => Err(BadWeekday)
    case Some((day, time)) =>
      match IndexOf(WEEKDAY_TOKENS, day)
      case None => Err(BadWeekday)
      case Some(weekday) =>
        match ParseTime(time)
        case Ok((hour, minute)) => Ok(Schedule(Weekly, 0, hour, minute, weekday))
        case Err(e) => Err(e)
  }

  // ---------------------------------------------------------------- printing

  function TimeToken(s: Schedule): string
    requires s.Valid()
  {
    TwoDigits(s.hour) + [':'] + TwoDigits(s.minute)
  }

  function Token(s: Schedule): string
    requires s.Valid()
  {
    match s.kind
    case Every => "every:" + Decimal(s.intervalHours) + "h"
    case Daily => "daily" + ['@'] + TimeToken(s)
    case Weekly => "weekly" + ['@'] + (WEEKDAY_TOKENS[s.weekday] + ['.'] + TimeToken(s))
  }

  // ---------------------------------------------------------------- round trip

  /** The schedule with the fields its kind does not use set back to their defaults. */
  function Normal(s: Schedule): Schedule {
    match s.kind
    case Every => Schedule(Every, s.intervalHours, 0, 0, 0)
    case Daily => Schedule(Daily, 0, s.hour, s.minute, 0)
    case Weekly => Schedule(Weekly, 0, s.hour, s.minute, s.weekday)
  }

  lemma TwoDigitsRead(n: int)
    requires 0 <= n < 100
    ensures AllDigits(TwoDigits(n)) && Number(TwoDigits(n)) == n
  {
    var s := TwoDigits(n);
    assert s[..1] == [s[0]] && s[..1][..0] == "";
    assert Number(s[..1]) == n / 10;
  }

  lemma TimeTokenParses(s: Schedule)
    requires s.Valid()
    ensures ParseTime(TimeToken(s)) == Ok((s.hour, s.minute))
  {
    var h, m := TwoDigits(s.hour), TwoDigits(s.minute);
    TwoDigitsRead(s.hour);
    TwoDigitsRead(s.minute);
    CutAtFirst(h, ':', m);
    assert TimeToken(s)[|TimeToken(s)| - 1] == m[1];
    assert IsHour(h) && IsMinute(m);
  }

  lemma NotEvery(token: string)
    requires token != "" && token[0] != 'e'
    ensures EveryDigits(token).None?
  {
    var t := Chomp(token);
    if |t| > 7 {
      assert t[..6][0] == token[0] && "every:"[0] == 'e';
    }
  }

  lemma WeekdayIndex(d: nat)
    requires d < 7
    ensures IndexOf(WEEKDAY_TOKENS, WEEKDAY_TOKENS[d]) == Some(d) && '.' !in WEEKDAY_TOKENS[d]
  {
    var w := WEEKDAY_TOKENS;
    IndexAt(w, d);
  }

  lemma {:induction false} IndexAt(w: seq<string>, d: nat)
    requires d < |w| && forall i, j :: 0 <= i < j < |w| ==> w[i] != w[j]
    ensures IndexOf(w, w[d]) == Some(d)
  {
    if d < |w| - 1 {
      IndexAt(w[..|w| - 1], d);
    }
  }

  lemma EveryTokenParses(s: Schedule)
    requires s.Valid() && s.kind == Every
    ensures ParseSchedule(Token(s)) == Ok(Normal(s))
  {
    var d, t := Decimal(s.intervalHours), Token(s);
    DecimalReads(s.intervalHours);
    assert t[..6] == "every:" && t[|t| - 1] == 'h' && t[6..|t| - 1] == d;
  }

  lemma DailyTokenParses(s: Schedule)
    requires s.Valid() && s.kind == Daily
    ensures ParseSchedule(Token(s)) == Ok(Normal(s))
  {
    NotEvery(Token(s));
    CutAtFirst("daily", '@', TimeToken(s));
    TimeTokenParses(s);
  }

  lemma WeeklyIs(token: string, rest: string)
    requires EveryDigits(token).None? && CutAt(token, '@') == Some(("weekly", rest))
    ensures ParseSchedule(token) == ParseWeekly(rest)
  {
  }

  /** The rest of a token whose parts are those of a weekly schedule. */
  lemma WeeklyOf(rest: string, day: string, time: string, s: Schedule)
    requires CutAt(rest, '.') == Some((day, time)) && s.weekday >= 0 && IndexOf(WEEKDAY_TOKENS, day) == Some(s.weekday)
    requires ParseTime(time) == Ok((s.hour, s.minute)) && s.kind == Weekly
    ensures ParseWeekly(rest) == Ok(Normal(s))
  {
  }

  lemma WeeklyTokenParses(s: Schedule)
    requires s.Valid() && s.kind == Weekly
    ensures ParseSchedule(Token(s)) == Ok(Normal(s))
  {
    NotEvery(Token(s));
    CutAtFirst("weekly", '@', WEEKDAY_TOKENS[s.weekday] + ['.'] + TimeToken(s));
    WeekdayIndex(s.weekday);
    CutAtFirst(WEEKDAY_TOKENS[s.weekday], '.', TimeToken(s));
    TimeTokenParses(s);
    WeeklyIs(Token(s), WEEKDAY_TOKENS[s.weekday] + ['.'] + TimeToken(s));
    WeeklyOf(WEEKDAY_TOKENS[s.weekday] + ['.'] + TimeToken(s), WEEKDAY_TOKENS[s.weekday], TimeToken(s), s);
  }

  lemma TokenParses(s: Schedule)
    requires s.Valid()
    ensures ParseSchedule(Token(s)) == Ok(Normal(s))
  {
    match s.kind
    case Every => EveryTokenParses(s);
    case Daily => DailyTokenParses(s);
    case Weekly => WeeklyTokenParses(s);
  }

  /** A schedule's token reads back as that schedule exactly when it carries nothing its kind ignores. */
  lemma TokenRoundTripExact(s: Schedule)
    requires s.Valid()
    ensures ParseSchedule(Token(s)) == Ok(s) <==> s == Normal(s)
  {
    TokenParses(s);
  }

  lemma {:induction false} IndexIsSmall(w: seq<string>, day: string)
    ensures IndexOf(w, day).Some? ==> IndexOf(w, day).value < |w| && w[IndexOf(w, day).value] == day
  {
    if w != [] {
      IndexIsSmall(w[..|w| - 1], day);
    }
  }

  lemma HourMinuteRange(s: string)
    requires AllDigits(s) && (IsHour(s) || IsMinute(s))
    ensures IsHour(s) ==> Number(s) < 24
    ensures IsMinute(s) ==> Number(s) < 60
  {
    if |s| == 1 {
      assert s[..0] == "";
    } else {
      assert s[..1] == [s[0]] && s[..1][..0] == "";
      assert Number(s[..1]) == DigitValue(s[0]);
    }
  }

  lemma ParsedTimeRange(value: string)
    ensures ParseTime(value).Ok? ==> 0 <= ParseTime(value).value.0 < 24 && 0 <= ParseTime(value).value.1 < 60
  {
    match CutAt(Chomp(value), ':')
    case Some((hour, minute)) =>
      if IsHour(hour) && IsMinute(minute) {
        HourMinuteRange(hour);
        HourMinuteRange(minute);
      }
    case None =>
  }

  /** Whatever the parser returns can be constructed, and printing it and parsing again changes nothing. */
  lemma ParsedIsNormalForm(token: string)
    ensures match ParseSchedule(token)
      case Ok(s) => s.Valid() && s == Normal(s) && ParseSchedule(Token(s)) == Ok(s)
      case Err(_) => true
  {
    if ParseSchedule(token).Ok? {
      if EveryDigits(token).None? {
        var (kind, rest) := CutAt(token, '@').value;
        ParsedTimeRange(rest);
        if kind == "weekly" {
          var (day, time) := CutAt(rest, '.').value;
          ParsedTimeRange(time);
          IndexIsSmall(WEEKDAY_TOKENS, day);
        }
      }
      TokenParses(ParseSchedule(token).value);
    }
  }

  // ---------------------------------------------------------------- the language, written out

  /** `text`, or `text` and one final newline. */
  predicate Ends(token: string, text: string) {
    token == text || token == text + "\n"
  }

  /** An hour of one or two digits and a minute of two. */
  ghost predicate Clock(hours: string, minutes: string, hour: int, minute: int) {
    && AllDigits(hours) && 1 <= |hours| <= 2 && Number(hours) == hour <= 23
    && AllDigits(minutes) && |minutes| == 2 && Number(minutes) == minute <= 59
  }

  ghost predicate TimeText(value: string, hour: int, minute: int) {
    exists hours: string, minutes: string ::
      Clock(hours, minutes, hour, minute) && Ends(value, hours + ":" + minutes)
  }

  ghost predicate EveryText(token: string, n: int) {
    exists digits: string ::
      AllDigits(digits) && digits != "" && Number(digits) == n && Ends(token, "every:" + digits + "h")
  }

  /** The token says this schedule and nothing else. */
  ghost predicate SaysSchedule(token: string, s: Schedule) {
    match s.kind
    case Every =>
      && s == Schedule(Every, s.intervalHours, 0, 0, 0) && s.intervalHours > 0
      && EveryText(token, s.intervalHours)
    case Daily =>
      && s == Schedule(Daily, 0, s.hour, s.minute, 0)
      && |token| >= 6 && token[..6] == "daily@" && TimeText(token[6..], s.hour, s.minute)
    case Weekly =>
      && s == Schedule(Weekly, 0, s.hour, s.minute, s.weekday) && 0 <= s.weekday < 7
      && |token| >= 11 && token[..11] == "weekly@" + WEEKDAY_TOKENS[s.weekday] + "."
      && TimeText(token[11..], s.hour, s.minute)
  }

  lemma ChompEnds(token: string)
    ensures Ends(token, Chomp(token))
  {
  }

  lemma EndsChomp(token: string, text: string)
    requires Ends(token, text) && text != "" && text[|text| - 1] != '\n'
    ensures Chomp(token) == text
  {
    assert token == text + "\n" ==> token[..|token| - 1] == text;
  }

  lemma NumberOfTwo(s: string)
    requires AllDigits(s) && |s| == 2
    ensures Number(s) == 10 * DigitValue(s[0]) + DigitValue(s[1])
  {
    assert s[..1] == [s[0]] && s[..1][..0] == "";
    assert Number(s[..1]) == DigitValue(s[0]);
  }

  lemma HourExactly(s: string)
    ensures IsHour(s) <==> AllDigits(s) && 1 <= |s| <= 2 && Number(s) <= 23
  {
    if AllDigits(s) && |s| == 1 {
      assert s[..0] == "" && Number(s) == DigitValue(s[0]);
    }
    if AllDigits(s) && |s| == 2 {
      NumberOfTwo(s);
    }
  }

  lemma MinuteExactly(s: string)
    ensures IsMinute(s) <==> AllDigits(s) && |s| == 2 && Number(s) <= 59
  {
    if AllDigits(s) && |s| == 2 {
      NumberOfTwo(s);
    }
  }

  lemma TimeReads(value: string, hours: string, minutes: string, hour: int, minute: int)
    requires Clock(hours, minutes, hour, minute) && Ends(value, hours + ":" + minutes)
    ensures ParseTime(value) == Ok((hour, minute))
  {
    var text := hours + ":" + minutes;
    assert text[|text| - 1] == minutes[1];
    EndsChomp(value, text);
    assert ':' !in hours;
    CutAtFirst(hours, ':', minutes);
    HourExactly(hours);
    MinuteExactly(minutes);
  }

  lemma TimeExactly(value: string, hour: int, minute: int)
    ensures ParseTime(value) == Ok((hour, minute)) <==> TimeText(value, hour, minute)
  {
    if ParseTime(value) == Ok((hour, minute)) {
      var (hours, minutes) := CutAt(Chomp(value), ':').value;
      HourExactly(hours);
      MinuteExactly(minutes);
      ChompEnds(value);
      assert Clock(hours, minutes, hour, minute) && Chomp(value) == hours + ":" + minutes;
    }
    if TimeText(value, hour, minute) {
      var hours, minutes :| Clock(hours, minutes, hour, minute) && Ends(value, hours + ":" + minutes);
      TimeReads(value, hours, minutes, hour, minute);
    }
  }

  lemma EveryReads(token: string, digits: string)
    requires AllDigits(digits) && digits != "" && Ends(token, "every:" + digits + "h")
    ensures EveryDigits(token) == Some(digits)
  {
    var text := "every:" + digits + "h";
    EndsChomp(token, text);
    assert text[..6] == "every:" && text[6..|text| - 1] == digits;
  }

  lemma EveryExactly(token: string, n: int)
    ensures EveryText(token, n) <==> EveryDigits(token).Some? && Number(EveryDigits(token).value) == n
  {
    if EveryDigits(token).Some? {
      var t, digits := Chomp(token), EveryDigits(token).value;
      ChompEnds(token);
      assert t == t[..6] + t[6..|t| - 1] + [t[|t| - 1]];
      assert t == "every:" + digits + "h" && digits != "";
    }
    if EveryText(token, n) {
      var digits :| AllDigits(digits) && digits != "" && Number(digits) == n && Ends(token, "every:" + digits + "h");
      EveryReads(token, digits);
    }
  }

  lemma DailyReads(token: string, s: Schedule)
    requires SaysSchedule(token, s) && s.kind == Daily
    ensures ParseSchedule(token) == Ok(s)
  {
    NotEvery(token);
    assert token == "daily" + ['@'] + token[6..];
    CutAtFirst("daily", '@', token[6..]);
    TimeExactly(token[6..], s.hour, s.minute);
  }

  lemma WeeklyReads(token: string, s: Schedule)
    requires SaysSchedule(token, s) && s.kind == Weekly
    ensures ParseSchedule(token) == Ok(s)
  {
    var day, time := WEEKDAY_TOKENS[s.weekday], token[11..];
    NotEvery(token);
    WeekdayLength(s.weekday);
    WeeklyJoins(token, day);
    CutAtFirst("weekly", '@', day + ['.'] + time);
    WeekdayIndex(s.weekday);
    CutAtFirst(day, '.', time);
    TimeExactly(time, s.hour, s.minute);
    WeeklyIs(token, day + ['.'] + time);
    WeeklyOf(day + ['.'] + time, day, time, s);
  }

  lemma WeeklyJoins(token: string, day: string)
    requires |day| == 3 && |token| >= 11 && token[..11] == "weekly@" + day + "."
    ensures token == "weekly" + ['@'] + (day + ['.'] + token[11..])
  {
    assert token == token[..11] + token[11..];
    assert "weekly@" == "weekly" + ['@'] && "." == ['.'];
  }

  lemma SaidReads(token: string, s: Schedule)
    requires SaysSchedule(token, s)
    ensures ParseSchedule(token) == Ok(s)
  {
    match s.kind
    case Every => EveryExactly(token, s.intervalHours);
    case Daily => DailyReads(token, s);
    case Weekly => WeeklyReads(token, s);
  }

  lemma ReadIsSaid(token: string, s: Schedule)
    requires ParseSchedule(token) == Ok(s)
    ensures SaysSchedule(token, s)
  {
    if EveryDigits(token).Some? {
      EveryExactly(token, s.intervalHours);
    } else {
      var (kind, rest) := CutAt(token, '@').value;
      assert token == kind + ['@'] + rest;
      if kind == "daily" {
        assert token[..6] == "daily@" && token[6..] == rest;
        TimeExactly(rest, s.hour, s.minute);
      } else {
        WeeklyIs(token, rest);
        ReadWeeklyIsSaid(token, rest, s);
      }
    }
  }

  lemma WeekdayLength(d: nat)
    requires d < 7
    ensures |WEEKDAY_TOKENS[d]| == 3
  {
  }

  lemma WeeklySlices(token: string, day: string, time: string)
    requires |day| == 3 && token == "weekly" + ['@'] + (day + ['.'] + time)
    ensures |token| >= 11 && token[..11] == "weekly@" + day + "." && token[11..] == time
  {
  }

  /** What the parser made of the parts of a weekly token. */
  lemma WeeklyParts(rest: string, day: string, time: string, s: Schedule)
    requires ParseWeekly(rest) == Ok(s) && CutAt(rest, '.') == Some((day, time))
    ensures IndexOf(WEEKDAY_TOKENS, day) == Some(s.weekday) && ParseTime(time) == Ok((s.hour, s.minute))
    ensures s == Schedule(Weekly, 0, s.hour, s.minute, s.weekday)
  {
  }

  lemma ReadWeeklyIsSaid(token: string, rest: string, s: Schedule)
    requires token == "weekly" + ['@'] + rest && ParseWeekly(rest) == Ok(s)
    ensures SaysSchedule(token, s)
  {
    var (day, time) := CutAt(rest, '.').value;
    WeeklyParts(rest, day, time, s);
    IndexIsSmall(WEEKDAY_TOKENS, day);
    WeekdayLength(s.weekday);
    WeeklySlices(token, day, time);
    TimeExactly(time, s.hour, s.minute);
  }

  /** What parses, in full: a token parses to a schedule exactly when it says that schedule. */
  lemma ParsesExactly(token: string, s: Schedule)
    ensures ParseSchedule(token) == Ok(s) <==> SaysSchedule(token, s)
  {
    if ParseSchedule(token) == Ok(s) {
      ReadIsSaid(token, s);
    }
    if SaysSchedule(token, s) {
      SaidReads(token, s);
    }
  }

  /** Begins with a weekday and a dot. */
  ghost predicate NamesDay(rest: string) {
    exists d :: 0 <= d < 7 && WEEKDAY_TOKENS[d] + ['.'] <= rest
  }

  lemma DayIsCut(rest: string)
    ensures NamesDay(rest) <==> CutAt(rest, '.').Some? && IndexOf(WEEKDAY_TOKENS, CutAt(rest, '.').value.0).Some?
  {
    if NamesDay(rest) {
      var d :| 0 <= d < 7 && WEEKDAY_TOKENS[d] + ['.'] <= rest;
      WeekdayIndex(d);
      CutAtPrefix(rest, '.', WEEKDAY_TOKENS[d]);
    }
    if CutAt(rest, '.').Some? {
      IndexIsSmall(WEEKDAY_TOKENS, CutAt(rest, '.').value.0);
    }
  }

  lemma EveryIsOther(token: string)
    requires EveryDigits(token).Some?
    ensures !("daily@" <= token) && !("weekly@" <= token)
  {
    assert "daily@"[0] == 'd' && "weekly@"[0] == 'w';
    if "daily@" <= token || "weekly@" <= token {
      NotEvery(token);
    }
  }

  lemma RefusedWeekly(token: string)
    requires EveryDigits(token).None? && "weekly@" <= token && ParseSchedule(token).Err?
    ensures ParseSchedule(token).error == if NamesDay(token[7..]) then BadTime else BadWeekday
  {
    CutAtPrefix(token, '@', "weekly");
    assert "weekly" + ['@'] == "weekly@" && CutAt(token, '@') == Some(("weekly", token[7..]));
    DayIsCut(token[7..]);
    WeeklyIs(token, token[7..]);
    WeeklyError(token[7..]);
  }

  lemma WeeklyError(rest: string)
    requires ParseWeekly(rest).Err?
    ensures ParseWeekly(rest).error
      == if CutAt(rest, '.').Some? && IndexOf(WEEKDAY_TOKENS, CutAt(rest, '.').value.0).Some? then BadTime
         else BadWeekday
  {
  }

  /** Why a token is refused: no hours, no time of day, no weekday, or no schedule at all. */
  lemma RefusedBecause(token: string)
    requires ParseSchedule(token).Err?
    ensures ParseSchedule(token).error ==
      if EveryText(token, 0) then ZeroInterval
      else if "daily@" <= token then BadTime
      else if "weekly@" <= token then (if NamesDay(token[7..]) then BadTime else BadWeekday)
      else UnknownSchedule
  {
    EveryExactly(token, 0);
    if EveryDigits(token).None? {
      CutAtPrefix(token, '@', "daily");
      CutAtPrefix(token, '@', "weekly");
      assert "daily" + ['@'] == "daily@" && "weekly" + ['@'] == "weekly@";
      if "weekly@" <= token {
        RefusedWeekly(token);
      }
    } else {
      EveryIsOther(token);
    }
  }
}
