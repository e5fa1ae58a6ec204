/**
 Lines as Google writes them, letter by letter: how every spelling of a time, a shift and a day's
 hours is read.
 */
module OpeningLines {
  import opened Common
  import opened OpeningHours

  /** A time as written: 24-hour, or 12-hour with or without minutes, blanks before the meridiem,
      and one spelling of it: a letter, "m" in either case, and dots or none. */
  datatype Spelling =
    | Military(hour: nat, minute: nat)
    | Twelve(hour: nat, minutes: Option<nat>, space: string, letter: char, dot: bool, m: char, end: bool)

  predicate Morning(letter: char) {
    letter == 'a' || letter == 'A'
  }

  predicate Afternoon(letter: char) {
    letter == 'p' || letter == 'P'
  }

  predicate Proper(t: Spelling) {
    match t
    case Military(h, min) => h < 24 && min < 60
    case Twelve(h, min, space, letter, _, m, _) =>
      && 1 <= h <= 12 && (min.Some? ==> min.value < 60) && Blank(space)
      && (Morning(letter) || Afternoon(letter)) && (m == 'm' || m == 'M')
  }

  function Letters(letter: char, dot: bool, m: char, end: bool): string {
    [letter] + (if dot then "." else "") + [m] + (if end then "." else "")
  }

  function Write(t: Spelling): string
    requires Proper(t)
  {
    match t
    case Military(h, min) => Two(h) + ":" + Two(min)
    case Twelve(h, min, space, letter, dot, m, end) =>
      Plain(h) + (if min.Some? then ":" + Two(min.value) else "") + space + Letters(letter, dot, m, end)
  }

  /** The time meant: 12 AM is midnight, 12 PM noon. */
  function Hour(t: Spelling): (h: nat)
    requires Proper(t)
    ensures h < 24
  {
    match t
    case Military(h, _) => h
    case Twelve(h, _, _, letter, _, _, _) =>
      if Morning(letter) then if h == 12 then 0 else h else if h == 12 then 12 else h + 12
  }

  function Minute(t: Spelling): (m: nat)
    requires Proper(t)
    ensures m < 60
  {
    match t
    case Military(_, min) => min
    case Twelve(_, min, _, _, _, _, _) => if min.Some? then min.value else 0
  }

  /** The clock's decimal digits. */
  function Digits(n: nat): string
    requires n < 100
  {
    [DIGITS[n / 10], DIGITS[n % 10]]
  }

  const DIGITS: seq<char> := ['0', '1', '2', '3', '4', '5', '6', '7', '8', '9']

  function Time(t: Spelling): string
    requires Proper(t)
  {
    Digits(Hour(t)) + ":" + Digits(Minute(t))
  }

  lemma TwoIsDigits(n: nat)
    requires n < 100
    ensures Two(n) == Digits(n)
  {
    FigureIsDigit(n / 10);
    FigureIsDigit(n % 10);
  }

  lemma FigureIsDigit(n: nat)
    requires n < 10
    ensures Figure(n) == DIGITS[n]
  {
  }

  lemma MeridiemOf(letter: char, dot: bool, m: char, end: bool)
    requires (Morning(letter) || Afternoon(letter)) && (m == 'm' || m == 'M')
    ensures AmPm(Letters(letter, dot, m, end)) == Some(Afternoon(letter))
  {
    var s := Letters(letter, dot, m, end);
    assert s[0] == letter && s[1] == if dot then '.' else m;
    if dot {
      assert s[2..] == [m] + (if end then "." else "");
    } else {
      assert s[1..] == [m] + (if end then "." else "");
    }
  }

  /** A 12-hour time without minutes is the full hour. */
  lemma BareHourIsRead(h: nat, space: string, mer: string)
    requires 1 <= h <= 12 && Blank(space) && AmPm(mer).Some?
    ensures To24h(Plain(h) + space + mer) == Some(Two(h % 12 + if AmPm(mer).value then 12 else 0) + ":" + Two(0))
  {
    var t := Plain(h) + space + mer;
    DigitsAreNoSpaces(t[0]);
    MeridiemIsAscii(mer);
    StripKeeps(t);
    assert Two(0) == "00" by { TwoIsDigits(0); }
    hide Meridiem, Strip, AmPm, Spaced, Plain, Two, IsSpace, Number, To24h;
    SpacedHead(Plain(h), space, mer) by { PlainIsAscii(h); }
    SpacedIsBlank(space);
    BareMeridiemReads(h, Spaced(space), mer);
    MeridiemGives(t, h, 0, AmPm(mer).value);
  }

  lemma PlainIsAscii(h: nat)
    requires 1 <= h <= 12
    ensures forall i | 0 <= i < |Plain(h)| :: Plain(h)[i] < '\U{80}'
  {
  }

  lemma BareMeridiemReads(h: nat, space: string, mer: string)
    requires 1 <= h <= 12 && Blank(space) && AmPm(mer).Some?
    ensures Meridiem(Plain(h) + space + mer) == Some(Reading(h, Two(0), AmPm(mer).value))
  {
    var rest := space + mer;
    var u, n := Plain(h) + rest, |Plain(h)|;
    assert Plain(h) + space + mer == u;
    NoColonFirst(space, mer);
    assert u[n] == rest[0];
    LeadOf(Plain(h), rest);
    assert u[..n] == Plain(h) && u[n..] == rest;
    DropLeading(space, mer) by { MeridiemIsAscii(mer); }
    TwoIsDigits(0);
    assert Number(Plain(h)) == h;
    hide AmPm, DropSpaces, Two, Plain, LeadingDigits;
  }

  lemma NoColonFirst(space: string, mer: string)
    requires Blank(space) && AmPm(mer).Some?
    ensures space + mer != "" && (space + mer)[0] != ':' && !Digit((space + mer)[0])
  {
    if space != "" { assert (space + mer)[0] == space[0] && IsSpace(space[0]); }
  }

  lemma {:induction false} LeadOf(digits: string, rest: string)
    requires (forall i | 0 <= i < |digits| :: Digit(digits[i])) && rest != "" && !Digit(rest[0])
    ensures LeadingDigits(digits + rest) == |digits|
  {
    if digits == "" {
      assert digits + rest == rest;
    } else {
      assert (digits + rest)[1..] == digits[1..] + rest;
      LeadOf(digits[1..], rest);
    }
  }

  /** Every spelling of a time is read as the time it means. */
  lemma EverySpellingIsRead(t: Spelling)
    requires Proper(t)
    ensures To24h(Write(t)) == Some(Time(t))
  {
    TwoIsDigits(Hour(t));
    TwoIsDigits(Minute(t));
    hide To24h, AmPm, Plain, Two, Letters, Digits;
    match t
    case Military(h, min) => ClockIsWritten(h, min);
    case Twelve(h, min, space, letter, dot, m, end) => TwelveIsRead(h, min, space, letter, dot, m, end);
  }

  lemma TwelveIsRead(h: nat, min: Option<nat>, space: string, letter: char, dot: bool, m: char, end: bool)
    requires Proper(Twelve(h, min, space, letter, dot, m, end))
    ensures var t := Twelve(h, min, space, letter, dot, m, end);
      To24h(Write(t)) == Some(Two(Hour(t)) + ":" + Two(Minute(t)))
  {
    var mer := Letters(letter, dot, m, end);
    hide To24h, AmPm, Plain, Two, Letters;
    MeridiemOf(letter, dot, m, end);
    HourOfTwelve(h, min, space, letter, dot, m, end);
    if min.Some? {
      TwelveHoursAreRead(h, min.value, space, mer);
    } else {
      BareHourIsRead(h, space, mer);
    }
  }

  lemma HourOfTwelve(h: nat, min: Option<nat>, space: string, letter: char, dot: bool, m: char, end: bool)
    requires Proper(Twelve(h, min, space, letter, dot, m, end))
    ensures var t, mer := Twelve(h, min, space, letter, dot, m, end), Letters(letter, dot, m, end);
      && Hour(t) == h % 12 + (if Afternoon(letter) then 12 else 0) && Minute(t) == (if min.Some? then min.value else 0)
      && Write(t) == (if min.Some? then Plain(h) + ":" + Two(min.value) + space + mer else Plain(h) + space + mer)
  {
    hide Plain, Two, Letters;
    if min.Some? {
      assert Plain(h) + (":" + Two(min.value)) == Plain(h) + ":" + Two(min.value);
    } else {
      assert Plain(h) + "" == Plain(h);
    }
  }

  lemma ClockIsWritten(h: nat, min: nat)
    requires h < 24 && min < 60
    ensures To24h(Two(h) + ":" + Two(min)) == Some(Two(h) + ":" + Two(min))
  {
    var s := Two(h) + ":" + Two(min);
    assert s[..2] == Two(h) && s[3..] == Two(min);
    ClockIsRead(s);
    hide To24h;
  }

  // ---- Shifts -------------------------------------------------------------------------------

  /** A shift as written: two times, a dash of one of three kinds, and blanks anywhere between. */
  datatype Turn = Turn(lead: string, start: Spelling, before: string, dash: char, after: string, end: Spelling,
                       trail: string)

  predicate ProperTurn(t: Turn) {
    && Proper(t.start) && Proper(t.end) && (t.dash == '-' || t.dash == '\U{2013}' || t.dash == '\U{2014}')
    && Blank(t.lead) && Blank(t.before) && Blank(t.after) && Blank(t.trail)
  }

  function WriteTurn(t: Turn): string
    requires ProperTurn(t)
  {
    (t.lead + Write(t.start) + t.before) + [t.dash] + (t.after + Write(t.end) + t.trail)
  }

  function HoursOf(t: Turn): string
    requires ProperTurn(t)
  {
    Time(t.start) + "-" + Time(t.end)
  }

  /** No dash, no comma, and no blank at either end. */
  predicate Solid(s: string) {
    && s != "" && !IsSpace(s[0]) && !IsSpace(s[|s| - 1])
    && forall i | 0 <= i < |s| :: !IsDash(s[i]) && s[i] != ','
  }

  predicate Tame(s: string) {
    forall i | 0 <= i < |s| :: !IsDash(s[i]) && s[i] != ','
  }

  lemma BlankIsTame(s: string)
    requires Blank(s)
    ensures Tame(s)
  {
  }

  lemma TameAppend(a: string, b: string)
    requires Tame(a) && Tame(b)
    ensures Tame(a + b)
  {
    hide IsDash;
  }

  lemma DigitIsTame(n: nat)
    requires n < 100
    ensures Tame(Two(n)) && !IsSpace(Two(n)[0]) && !IsSpace(Two(n)[1])
  {
  }

  lemma PlainIsTame(h: nat)
    requires 1 <= h <= 12
    ensures Tame(Plain(h)) && Plain(h) != "" && !IsSpace(Plain(h)[0])
  {
  }

  lemma LettersAreTame(letter: char, dot: bool, m: char, end: bool)
    requires (Morning(letter) || Afternoon(letter)) && (m == 'm' || m == 'M')
    ensures var s := Letters(letter, dot, m, end);
      Tame(s) && |s| >= 2 && (s[|s| - 1] == m || s[|s| - 1] == '.')
  {
  }

  lemma SpellingIsSolid(t: Spelling)
    requires Proper(t)
    ensures Solid(Write(t))
    ensures var c := Write(t)[|Write(t)| - 1]; Digit(c) || c == 'm' || c == 'M' || c == '.'
  {
    match t
    case Military(h, min) =>
      DigitIsTame(h);
      DigitIsTame(min);
      assert Write(t) == Two(h) + ":" + Two(min);
      hide Two, Tame;
      TameAppend(Two(h), ":") by { assert Tame(":") by { ColonIsTame(); } }
      TameAppend(Two(h) + ":", Two(min));
      TameIsSolid(Write(t));
    case Twelve(h, min, space, letter, dot, m, end) =>
      TwelveIsSolid(h, min, space, letter, dot, m, end);
  }

  lemma ColonIsTame()
    ensures Tame(":") && Tame("")
  {
  }

  lemma TameIsSolid(s: string)
    requires Tame(s) && s != "" && !IsSpace(s[0]) && !IsSpace(s[|s| - 1])
    ensures Solid(s)
  {
  }

  lemma TwelveIsSolid(h: nat, min: Option<nat>, space: string, letter: char, dot: bool, m: char, end: bool)
    requires Proper(Twelve(h, min, space, letter, dot, m, end))
    ensures var s := Write(Twelve(h, min, space, letter, dot, m, end));
      var c := s[|s| - 1];
      Solid(s) && (c == 'm' || c == 'M' || c == '.')
  {
    var minutes, mer := if min.Some? then ":" + Two(min.value) else "", Letters(letter, dot, m, end);
    var s := Plain(h) + minutes + space + mer;
    assert Write(Twelve(h, min, space, letter, dot, m, end)) == s;
    PlainIsTame(h);
    BlankIsTame(space);
    LettersAreTame(letter, dot, m, end);
    MinutesAreTame(min);
    hide Tame, Plain, Two, Letters, IsSpace, IsDash;
    TameAppend(Plain(h), minutes);
    TameAppend(Plain(h) + minutes, space);
    TameAppend(Plain(h) + minutes + space, mer);
    assert s[0] == Plain(h)[0] && s[|s| - 1] == mer[|mer| - 1];
    NoSpaces(m);
    TameIsSolid(s);
  }

  lemma MinutesAreTame(min: Option<nat>)
    requires min.Some? ==> min.value < 60
    ensures Tame(if min.Some? then ":" + Two(min.value) else "")
  {
    ColonIsTame();
    if min.Some? {
      DigitIsTame(min.value);
      TameAppend(":", Two(min.value));
    }
    hide Tame, Two;
  }

  lemma NoSpaces(m: char)
    requires m == 'm' || m == 'M'
    ensures !IsSpace(m) && !IsSpace('.')
  {
  }

  lemma {:induction false} StripBlanks(lead: string, s: string, trail: string)
    requires Blank(lead) && Blank(trail) && s != "" && !IsSpace(s[0]) && !IsSpace(s[|s| - 1])
    ensures Strip(lead + s + trail) == s
    decreases |trail|
  {
    if trail == "" {
      assert lead + s + trail == lead + s;
      DropLeading(lead, s);
      StripKeeps(s);
    } else {
      var most := trail[..|trail| - 1];
      assert s + trail == (s + most) + [trail[|trail| - 1]];
      assert lead + s + trail == lead + (s + trail) && lead + s + most == lead + (s + most);
      DropLeading(lead, s + trail);
      DropLeading(lead, s + most);
      StripBlanks(lead, s, most);
      assert (s + trail)[..|s + trail| - 1] == s + most;
      hide IsSpace, DropSpaces;
    }
  }

  /** The blanks around a time fall. */
  lemma BlanksFall(lead: string, s: string, trail: string)
    requires Blank(lead) && Blank(trail) && Solid(s)
    ensures To24h(lead + s + trail) == To24h(s)
  {
    StripBlanks(lead, s, trail);
    StripKeeps(s);
    hide Strip, IsSpace, Meridiem, OpeningHours.Military, Spaced;
  }

  lemma DashBetween(a: string, dash: char, b: string)
    requires Tame(a) && Tame(b) && IsDash(dash)
    ensures OneDash(a + [dash] + b) == Some((a, b))
  {
    var u := a + [dash] + b;
    assert u[..|a|] == a && u[|a| + 1..] == b && u[|a|] == dash;
    DashIsAt(u, |a|);
    DashIsAt(b, |b|);
  }

  /** Every spelling of a shift is read as its two times. */
  lemma EveryTurnIsRead(t: Turn)
    requires ProperTurn(t)
    ensures Shift(WriteTurn(t)) == Some(HoursOf(t))
  {
    var a, b := t.lead + Write(t.start) + t.before, t.after + Write(t.end) + t.trail;
    hide To24h, Tame, Write, OneDash, Digits, Hour, Minute, IsSpace;
    SideIsRead(t.lead, t.start, t.before);
    SideIsRead(t.after, t.end, t.trail);
    DashBetween(a, t.dash, b);
  }

  lemma SideIsRead(lead: string, t: Spelling, trail: string)
    requires Proper(t) && Blank(lead) && Blank(trail)
    ensures To24h(lead + Write(t) + trail) == Some(Time(t)) && Tame(lead + Write(t) + trail)
  {
    SidesAreTame(lead, t, trail);
    SpellingIsSolid(t);
    EverySpellingIsRead(t);
    hide To24h, Tame, Solid, Write, Digits, Hour, Minute;
    BlanksFall(lead, Write(t), trail);
  }

  lemma SidesAreTame(lead: string, t: Spelling, trail: string)
    requires Proper(t) && Blank(lead) && Blank(trail)
    ensures Tame(lead + Write(t) + trail)
  {
    SpellingIsSolid(t);
    BlankIsTame(lead);
    BlankIsTame(trail);
    assert Tame(Write(t));
    hide Write, Solid, Tame, IsSpace;
    TameAppend(lead, Write(t));
    TameAppend(lead + Write(t), trail);
  }

  // ---- A day's hours --------------------------------------------------------------------------

  /** The shifts of a day as written, a comma between each two. */
  function WriteDay(ts: seq<Turn>): string
    requires ts != [] && forall t | t in ts :: ProperTurn(t)
  {
    if |ts| == 1 then WriteTurn(ts[0]) else WriteTurn(ts[0]) + "," + WriteDay(ts[1..])
  }

  function WrittenTurns(ts: seq<Turn>): seq<string>
    requires forall t | t in ts :: ProperTurn(t)
  {
    seq(|ts|, i requires 0 <= i < |ts| => WriteTurn(ts[i]))
  }

  function AllHours(ts: seq<Turn>): seq<string>
    requires forall t | t in ts :: ProperTurn(t)
  {
    seq(|ts|, i requires 0 <= i < |ts| => HoursOf(ts[i]))
  }

  lemma NoCommaInTurn(t: Turn)
    requires ProperTurn(t)
    ensures forall i | 0 <= i < |WriteTurn(t)| :: WriteTurn(t)[i] != ','
  {
    SidesAreTame(t.lead, t.start, t.before);
    SidesAreTame(t.after, t.end, t.trail);
    var a, b := t.lead + Write(t.start) + t.before, t.after + Write(t.end) + t.trail;
    assert WriteTurn(t) == a + [t.dash] + b;
    hide Write, IsSpace, IsDash;
  }

  lemma {:induction false} DaySplits(ts: seq<Turn>)
    requires ts != [] && forall t | t in ts :: ProperTurn(t)
    ensures SplitComma(WriteDay(ts)) == WrittenTurns(ts)
  {
    hide SplitComma, WriteTurn, ProperTurn;
    assert ts[0] in ts;
    var first := WriteTurn(ts[0]);
    NoCommaInTurn(ts[0]);
    assert ts == [ts[0]] + ts[1..];
    WrittenFirst(ts);
    if |ts| == 1 {
      SplitAtComma(first, "");
    } else {
      DaySplits(ts[1..]);
      SplitAtComma(first, WriteDay(ts[1..]));
      hide WrittenTurns;
    }
  }

  lemma WrittenFirst(ts: seq<Turn>)
    requires ts != [] && forall t | t in ts :: ProperTurn(t)
    ensures WrittenTurns(ts) == [WriteTurn(ts[0])] + WrittenTurns(ts[1..])
  {
    hide WriteTurn, ProperTurn;
  }

  lemma {:induction false} TurnsAreRead(ts: seq<Turn>)
    requires forall t | t in ts :: ProperTurn(t)
    ensures Shifts(WrittenTurns(ts)) == Some(AllHours(ts))
  {
    hide WriteTurn, HoursOf, ProperTurn, Shift;
    if ts != [] {
      var init, t := ts[..|ts| - 1], ts[|ts| - 1];
      assert t in ts;
      TurnsAreRead(init);
      EveryTurnIsRead(t);
      assert WrittenTurns(ts)[..|ts| - 1] == WrittenTurns(init);
      assert AllHours(ts) == AllHours(init) + [HoursOf(t)];
    }
  }

  // It is none of the words for closed or all day: those end in another letter.

  lemma {:induction false} FoldEnds(s: string, c: char)
    requires s != "" && FoldChar(s[|s| - 1]) == [c]
    ensures FoldChars(s) != "" && FoldChars(s)[|FoldChars(s)| - 1] == c
  {
    if |s| > 1 {
      FoldEnds(s[1..], c);
      assert FoldChars(s) == FoldChar(s[0]) + FoldChars(s[1..]);
    } else {
      assert s[1..] == "";
    }
  }

  lemma EndsAlike(c: char)
    requires Digit(c) || c == 'm' || c == 'M' || c == '.'
    ensures !IsSpace(c) && |FoldChar(c)| == 1 && FoldChar(c) == [FoldChar(c)[0]] && FoldChar(c)[0] !in "sdao"
  {
  }

  lemma WordsEnd(s: string)
    requires s != "" && s[|s| - 1] !in "sdao"
    ensures !ClosedIn(s) && !AllDayIn(s)
  {
  }

  /** Blanks after the last time fall first. */
  lemma DayFoldsToNoWord(value: string)
    requires TimeLast(value)
    ensures !ClosedIn(Fold(value)) && !AllDayIn(Fold(value))
  {
    hide FoldChar, ClosedIn, AllDayIn, Strip, FoldChars, IsSpace, Blank;
    var body, trail :| value == body + trail && Blank(trail) && EndsTime(body);
    BodyFoldsToNoWord(body, trail);
  }

  lemma BodyFoldsToNoWord(body: string, trail: string)
    requires Blank(trail) && EndsTime(body)
    ensures !ClosedIn(FoldChars(Strip(body + trail))) && !AllDayIn(FoldChars(Strip(body + trail)))
  {
    hide FoldChar, ClosedIn, AllDayIn, Strip, FoldChars, IsSpace, Blank;
    var c := body[|body| - 1];
    EndsAlike(c);
    StripLeavesEnd(body, trail);
    FoldEnds(Strip(body + trail), FoldChar(c)[0]);
    WordsEnd(FoldChars(Strip(body + trail)));
  }

  lemma {:induction false} StripLeavesEnd(body: string, trail: string)
    requires Blank(trail) && body != "" && !IsSpace(body[|body| - 1])
    ensures var s := Strip(body + trail);
      s != "" && s[|s| - 1] == body[|body| - 1]
    decreases |body|
  {
    if IsSpace(body[0]) {
      assert (body + trail)[1..] == body[1..] + trail;
      StripLeavesEnd(body[1..], trail);
    } else {
      assert DropSpaces(body + trail) == body + trail;
      TrimBlanks(body, trail);
    }
    hide IsSpace;
  }

  lemma {:induction false} TrimBlanks(body: string, trail: string)
    requires Blank(trail) && body != "" && !IsSpace(body[|body| - 1])
    ensures TrimEnd(body + trail) == body
  {
    if trail == "" {
      assert body + trail == body;
    } else {
      assert (body + trail)[..|body + trail| - 1] == body + trail[..|trail| - 1];
      TrimBlanks(body, trail[..|trail| - 1]);
    }
  }

  /** The last character of a time as written. */
  predicate EndsTime(body: string) {
    body != "" && var c := body[|body| - 1]; Digit(c) || c == 'm' || c == 'M' || c == '.'
  }

  /** A time comes last, but for blanks. */
  ghost predicate TimeLast(s: string) {
    exists body, trail :: s == body + trail && Blank(trail) && EndsTime(body)
  }

  lemma TimeStaysLast(first: string, s: string)
    requires TimeLast(s)
    ensures TimeLast(first + s)
  {
    var body, trail :| s == body + trail && Blank(trail) && EndsTime(body);
    assert first + s == (first + body) + trail;
    assert (first + body)[|first + body| - 1] == body[|body| - 1];
  }

  lemma {:induction false} DayEnds(ts: seq<Turn>)
    requires ts != [] && forall t | t in ts :: ProperTurn(t)
    ensures TimeLast(WriteDay(ts))
  {
    hide ProperTurn, TimeLast, WriteTurn;
    var t := ts[0];
    assert t in ts;
    if |ts| == 1 {
      TurnEnds(t);
    } else {
      DayEnds(ts[1..]);
      TimeStaysLast(WriteTurn(t) + ",", WriteDay(ts[1..]));
    }
  }

  lemma TurnEnds(t: Turn)
    requires ProperTurn(t)
    ensures TimeLast(WriteTurn(t))
  {
    SpellingIsSolid(t.end);
    var first, last := t.lead + Write(t.start) + t.before + [t.dash], Write(t.end);
    assert TimeLast(last + t.trail) by { assert EndsTime(last); }
    assert WriteTurn(t) == first + (t.after + last + t.trail);
    hide Write, IsSpace, Solid, WriteTurn, TimeLast, EndsTime;
    assert first + (t.after + last + t.trail) == (first + t.after) + (last + t.trail);
    TimeStaysLast(first + t.after, last + t.trail);
  }

  /** Every spelling of a day's shifts is read as those shifts. */
  lemma EveryDayIsRead(ts: seq<Turn>)
    requires ts != [] && forall t | t in ts :: ProperTurn(t)
    ensures Parsed(WriteDay(ts)) == Some(Join(AllHours(ts)))
  {
    DayEnds(ts);
    DayFoldsToNoWord(WriteDay(ts));
    DaySplits(ts);
    TurnsAreRead(ts);
    hide ProperTurn, ClosedIn, AllDayIn, Fold, SplitComma, Shifts, WriteDay, AllHours, WrittenTurns, Join, IsSpace;
  }

  lemma {:induction false} TailGrows(xs: seq<string>, y: string)
    ensures Tail(xs + [y]) == Tail(xs) + ", " + y
  {
    if xs == [] {
      assert [] + [y] == [y] && [y][1..] == [];
      assert ", " + y + "" == ", " + y && "" + ", " + y == ", " + y;
    } else {
      assert (xs + [y])[1..] == xs[1..] + [y];
      TailGrows(xs[1..], y);
      var t := Tail(xs[1..]);
      hide Tail;
      assert ", " + xs[0] + (t + ", " + y) == ", " + xs[0] + t + ", " + y;
    }
  }

  /** The shifts read are joined by a comma and a space. */
  lemma JoinIsCommaSpace(xs: seq<string>, y: string)
    ensures Join([y]) == y && (xs != [] ==> Join(xs + [y]) == Join(xs) + ", " + y)
  {
    assert [y][1..] == [] && y + "" == y;
    if xs != [] {
      assert (xs + [y])[1..] == xs[1..] + [y];
      TailGrows(xs[1..], y);
      var t := Tail(xs[1..]);
      hide Tail;
      assert xs[0] + (t + ", " + y) == xs[0] + t + ", " + y;
    }
  }

  /** The words for closed and for all day, in any case and with accents or not. */
  lemma EveryWordIsRead(value: string, word: string)
    requires FoldsAs(value, word)
    ensures word in {"closed", "fechado", "fechada"} ==> Parsed(value) == Some("closed")
    ensures word in {"open 24 hours", "24 hours", "aberto 24 horas", "atendimento 24 horas", "24 horas"} ==>
      Parsed(value) == Some("open_24h")
  {
    if ClosedIn(word) || AllDayIn(word) {
      WordFolds(value, word);
      hide Fold, FoldsAs, SplitComma, Shifts;
      if AllDayIn(word) { NotBoth(word); }
    }
    hide Fold, FoldsAs, SplitComma, Shifts;
  }

  lemma NotBoth(word: string)
    requires AllDayIn(word)
    ensures !ClosedIn(word)
  {
  }

  lemma WordFolds(value: string, word: string)
    requires FoldsAs(value, word) && (ClosedIn(word) || AllDayIn(word))
    ensures Fold(value) == word
  {
    WordIsStripped(word);
    assert FoldChar(value[0]) == [word[0]] && FoldChar(value[|value| - 1]) == [word[|word| - 1]];
    hide ClosedIn, AllDayIn;
    SpaceFoldsElsewhere(value[0]);
    SpaceFoldsElsewhere(value[|value| - 1]);
    StripKeeps(value);
    FoldsTo(value, word);
  }

  lemma WordIsStripped(word: string)
    requires ClosedIn(word) || AllDayIn(word)
    ensures word != "" && (Digit(word[0]) || 'a' <= word[0] <= 'z') && 'a' <= word[|word| - 1] <= 'z'
  {
  }

  lemma SpaceFoldsElsewhere(c: char)
    ensures IsSpace(c) ==> FoldChar(c) == "" || (FoldChar(c) == [c] && c <= ' ')
  {
  }

  // ---- A line -----------------------------------------------------------------------------

  lemma {:induction false} ColonIsAt(name: string, rest: string)
    requires forall i | 0 <= i < |name| :: name[i] != ':'
    ensures FirstColon(name + ":" + rest) == |name|
  {
    if name == "" {
      assert name + ":" + rest == ":" + rest;
    } else {
      assert (name + ":" + rest)[1..] == name[1..] + ":" + rest;
      ColonIsAt(name[1..], rest);
    }
  }

  lemma LettersHaveNoColon(name: string, plain: string)
    requires FoldsAs(name, plain) && OpeningHours.Letters(plain)
    ensures forall i | 0 <= i < |name| :: name[i] != ':'
  {
    assert FoldChar(':') == ":";
  }

  lemma DayHasNoColon(d: nat, name: string)
    requires d < 7 && (FoldsAs(name, ENGLISH[d]) || FoldsAs(name, PORTUGUESE[d]))
    ensures forall i | 0 <= i < |name| :: name[i] != ':'
  {
    TheDaysAreNamed(d);
    hide FoldsAs;
    if FoldsAs(name, ENGLISH[d]) {
      LettersHaveNoColon(name, ENGLISH[d]);
    } else {
      LettersHaveNoColon(name, PORTUGUESE[d]);
    }
  }

  /** A line with the name of a day, in either language and any spelling, a colon and a day's shifts,
      in any spelling, is read as that day and those shifts. */
  lemma EveryLineIsRead(d: nat, name: string, ts: seq<Turn>)
    requires d < 7 && (FoldsAs(name, ENGLISH[d]) || FoldsAs(name, PORTUGUESE[d]))
    requires ts != [] && forall t | t in ts :: ProperTurn(t)
    ensures LineOf(name + ":" + WriteDay(ts)) == Some((d, Join(AllHours(ts))))
  {
    hide FoldsAs, DayIndex, Parsed, WriteDay, AllHours, Join, ProperTurn, FirstColon;
    TheDaysAreRead(d, name);
    DayHasNoColon(d, name);
    EveryDayIsRead(ts);
    var line, hours := name + ":" + WriteDay(ts), WriteDay(ts);
    ColonIsAt(name, hours);
    assert line[..|name|] == name && line[|name| + 1..] == hours;
  }

  /** "Monday: 9:00 AM", an en dash, "5:00 PM". */
  lemma NineToFive()
    ensures var t := Turn(" ", Twelve(9, Some(0), " ", 'A', false, 'M', false), " ", '\U{2013}', " ",
                          Twelve(5, Some(0), " ", 'P', false, 'M', false), "");
      ProperTurn(t) && HoursOf(t) == "09:00-17:00"
  {
    assert Digits(9) == "09" && Digits(17) == "17" && Digits(0) == "00";
  }
}
