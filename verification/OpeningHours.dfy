/**
 Google's weekdayDescriptions as a day-to-hours map: parse each line, convert to 24 hours, and
 run-length encode the week. Characters are ASCII, the Latin-1 letters and the typographic
 spaces and dashes.
 */
module OpeningHours {
  import opened Common

  // ---- Text -----------------------------------------------------------------------------------

  function DropSpaces(s: string): (r: string)
    ensures |r| <= |s| && (r != "" ==> !IsSpace(r[0]))
  {
    if s != "" && IsSpace(s[0]) then DropSpaces(s[1..]) else s
  }

  function TrimEnd(s: string): string {
    if s != "" && IsSpace(s[|s| - 1]) then TrimEnd(s[..|s| - 1]) else s
  }

  function Strip(s: string): string {
    TrimEnd(DropSpaces(s))
  }

  lemma StripKeeps(s: string)
    requires s == "" || (!IsSpace(s[0]) && !IsSpace(s[|s| - 1]))
    ensures Strip(s) == s
  {
  }

  /** Lower case without accents; what is not ASCII then goes. */
  function FoldChar(c: char): string {
    if 'A' <= c <= 'Z' then [('a' as int + c as int - 'A' as int) as char]
    else if c < '\U{80}' then [c]
    else if '\U{C0}' <= c <= '\U{C5}' || '\U{E0}' <= c <= '\U{E5}' then "a"
    else if c == '\U{C7}' || c == '\U{E7}' then "c"
    else if '\U{C8}' <= c <= '\U{CB}' || '\U{E8}' <= c <= '\U{EB}' then "e"
    else if '\U{CC}' <= c <= '\U{CF}' || '\U{EC}' <= c <= '\U{EF}' then "i"
    else if c == '\U{D1}' || c == '\U{F1}' then "n"
    else if '\U{D2}' <= c <= '\U{D6}' || '\U{F2}' <= c <= '\U{F6}' then "o"
    else if '\U{D9}' <= c <= '\U{DC}' || '\U{F9}' <= c <= '\U{FC}' then "u"
    else if c == '\U{DD}' || c == '\U{FD}' || c == '\U{FF}' then "y"
    else ""
  }

  function FoldChars(s: string): string {
    if s == "" then "" else FoldChar(s[0]) + FoldChars(s[1..])
  }

  function Fold(s: string): string {
    FoldChars(Strip(s))
  }

  /** Where every character folds to one, the fold is their sequence. */
  lemma {:induction false} FoldsTo(s: string, r: string)
    requires |s| == |r| && forall i | 0 <= i < |s| :: FoldChar(s[i]) == [r[i]]
    ensures FoldChars(s) == r
  {
    if s != "" {
      FoldsTo(s[1..], r[1..]);
      assert r == [r[0]] + r[1..];
    }
  }

  predicate StartsWith(s: string, w: string) {
    |s| >= |w| && s[..|w|] == w
  }

  /** str.replace(w, "") */
  function Without(s: string, w: string): string
    requires w != ""
  {
    if s == "" then "" else if StartsWith(s, w) then Without(s[|w|..], w) else [s[0]] + Without(s[1..], w)
  }

  // ---- Times ----------------------------------------------------------------------------------

  predicate Digit(c: char) {
    '0' <= c <= '9'
  }

  function Value(c: char): nat
    requires Digit(c)
  {
    c as int - '0' as int
  }

  function Figure(n: nat): char
    requires n < 10
  {
    ('0' as int + n) as char
  }

  /** Two digits, zero-padded. */
  function Two(n: nat): (s: string)
    requires n < 100
    ensures |s| == 2 && Digit(s[0]) && Digit(s[1]) && Number(s) == n
  {
    [Figure(n / 10), Figure(n % 10)]
  }

  /** The number one or two digits write. */
  function Number(s: string): nat
    requires 1 <= |s| <= 2 && forall i | 0 <= i < |s| :: Digit(s[i])
  {
    if |s| == 1 then Value(s[0]) else 10 * Value(s[0]) + Value(s[1])
  }

  lemma TwoOfNumber(s: string)
    requires |s| == 2 && Digit(s[0]) && Digit(s[1])
    ensures Number(s) < 100 && Two(Number(s)) == s
  {
  }

  function LeadingDigits(s: string): (n: nat)
    ensures n <= |s| && forall i | 0 <= i < n :: Digit(s[i])
    ensures n < |s| ==> !Digit(s[n])
  {
    if s != "" && Digit(s[0]) then 1 + LeadingDigits(s[1..]) else 0
  }

  /** "am" or "pm", in either case, with or without dots. */
  function AmPm(s: string): Option<bool> {
    if |s| >= 2 && s[0] in "aApP" then
      var rest := if s[1] == '.' then s[2..] else s[1..];
      if rest != "" && rest[0] in "mM" && (rest[1..] == "" || rest[1..] == ".") then Some(s[0] in "pP") else None
    else None
  }

  datatype Reading = Reading(hour: nat, minute: string, pm: bool)

  /** _MERIDIEM */
  function Meridiem(t: string): (r: Option<Reading>)
    ensures r.Some? ==> |r.value.minute| == 2 && Digit(r.value.minute[0]) && Digit(r.value.minute[1])
  {
    var n := LeadingDigits(t);
    if n == 0 || n > 2 then None
    else
      var timed := |t| >= n + 3 && t[n] == ':' && Digit(t[n + 1]) && Digit(t[n + 2]);
      var pm := AmPm(DropSpaces(if timed then t[n + 3..] else t[n..]));
      if pm.None? then None else Some(Reading(Number(t[..n]), if timed then t[n + 1..n + 3] else "00", pm.value))
  }

  /** _24H */
  function Military(t: string): (r: Option<Reading>)
    ensures r.Some? ==> |r.value.minute| == 2 && Digit(r.value.minute[0]) && Digit(r.value.minute[1])
  {
    var n := LeadingDigits(t);
    if (n == 1 || n == 2) && |t| == n + 3 && t[n] == ':' && Digit(t[n + 1]) && Digit(t[n + 2])
    then Some(Reading(Number(t[..n]), t[n + 1..], false)) else None
  }

  function Spaced(s: string): string {
    seq(|s|, i requires 0 <= i < |s| => if s[i] == '\U{202F}' || s[i] == '\U{A0}' then ' ' else s[i])
  }

  function Clock(hour: nat, minute: string): (s: string)
    requires hour < 24 && |minute| == 2 && Digit(minute[0]) && Digit(minute[1]) && Number(minute) <= 59
    ensures IsClock(s)
  {
    var s := Two(hour) + ":" + minute;
    assert s[..2] == Two(hour) && s[3..] == minute;
    s
  }

  function To24h(token: string): (r: Option<string>)
    ensures r.Some? ==> IsClock(r.value)
  {
    var t := Spaced(Strip(token));
    var m := Meridiem(t);
    if m.Some? then
      if !(1 <= m.value.hour <= 12) || Number(m.value.minute) > 59 then None
      else Some(Clock(m.value.hour % 12 + if m.value.pm then 12 else 0, m.value.minute))
    else
      var h := Military(t);
      if h.Some? && h.value.hour <= 23 && Number(h.value.minute) <= 59
      then Some(Clock(h.value.hour, h.value.minute)) else None
  }

  /** HH:MM within one day. */
  predicate IsClock(s: string) {
    && |s| == 5 && Digit(s[0]) && Digit(s[1]) && s[2] == ':' && Digit(s[3]) && Digit(s[4])
    && Number(s[..2]) <= 23 && Number(s[3..]) <= 59
  }

  lemma DigitsAreNoSpaces(c: char)
    ensures Digit(c) ==> !IsSpace(c)
  {
  }

  /** A 24-hour time is read as itself. */
  lemma ClockIsRead(s: string)
    requires IsClock(s)
    ensures To24h(s) == Some(s)
  {
    DigitsAreNoSpaces(s[0]);
    DigitsAreNoSpaces(s[4]);
    StripKeeps(s);
    assert Spaced(s) == s;
    TwoDigitsLead(s);
    assert DropSpaces(s[5..]) == "";
    TwoOfNumber(s[..2]);
    assert s == s[..2] + ":" + s[3..];
  }

  lemma TwoDigitsLead(s: string)
    requires |s| >= 3 && Digit(s[0]) && Digit(s[1]) && !Digit(s[2])
    ensures LeadingDigits(s) == 2
  {
    assert LeadingDigits(s[1..]) == 1 + LeadingDigits(s[1..][1..]);
    assert s[1..][1..] == s[2..] && LeadingDigits(s[2..]) == 0;
  }

  /** The hour as a 12-hour clock writes it: no padding. */
  function Plain(h: nat): string
    requires 1 <= h <= 12
  {
    if h < 10 then [Figure(h)] else Two(h)
  }

  lemma MeridiemReads(h: nat, minute: nat, space: string, mer: string)
    requires 1 <= h <= 12 && minute < 60 && Blank(space) && AmPm(mer).Some?
    ensures Meridiem(Plain(h) + ":" + Two(minute) + space + mer) == Some(Reading(h, Two(minute), AmPm(mer).value))
  {
    var head, rest := Plain(h) + ":" + Two(minute), space + mer;
    var u, n := head + rest, |Plain(h)|;
    assert Plain(h) + ":" + Two(minute) + space + mer == u;
    assert forall i | 0 <= i < |head| :: u[i] == head[i];
    if n == 2 {
      TwoDigitsLead(u);
    } else {
      assert u[1] == ':' && LeadingDigits(u[1..]) == 0;
    }
    assert u[..n] == Plain(h) && u[n + 1..n + 3] == Two(minute) && u[n + 3..] == rest;
    DropLeading(space, mer);
    hide AmPm, DropSpaces, Two, Plain;
  }

  lemma SpacedAppend(a: string, b: string)
    ensures Spaced(a + b) == Spaced(a) + Spaced(b)
  {
  }

  lemma SpacedKeeps(s: string)
    requires forall i | 0 <= i < |s| :: s[i] < '\U{80}'
    ensures Spaced(s) == s
  {
  }

  /** Any time of a 12-hour clock, with whatever spaces and spelling of AM and PM, is read as the
      same time of the 24-hour clock: 12 AM is midnight, 12 PM noon. */
  lemma TwelveHoursAreRead(h: nat, minute: nat, space: string, mer: string)
    requires 1 <= h <= 12 && minute < 60 && Blank(space) && AmPm(mer).Some?
    ensures To24h(Plain(h) + ":" + Two(minute) + space + mer) ==
      Some(Two(h % 12 + if AmPm(mer).value then 12 else 0) + ":" + Two(minute))
  {
    var head := Plain(h) + ":" + Two(minute);
    var t := head + space + mer;
    DigitsAreNoSpaces(t[0]);
    MeridiemIsAscii(mer);
    StripKeeps(t);
    hide Meridiem, Strip, AmPm, Spaced, Plain, Two, IsSpace, Number, To24h;
    SpacedHead(head, space, mer);
    SpacedIsBlank(space);
    MeridiemReads(h, minute, Spaced(space), mer);
    MeridiemGives(t, h, minute, AmPm(mer).value);
  }

  lemma MeridiemGives(token: string, h: nat, minute: nat, pm: bool)
    requires 1 <= h <= 12 && minute < 60
    requires Meridiem(Spaced(Strip(token))) == Some(Reading(h, Two(minute), pm))
    ensures To24h(token) == Some(Two(h % 12 + if pm then 12 else 0) + ":" + Two(minute))
  {
    hide Meridiem, Spaced, Strip, Military, Two;
  }

  lemma SpacedHead(head: string, space: string, mer: string)
    requires forall i | 0 <= i < |head| :: head[i] < '\U{80}'
    requires forall i | 0 <= i < |mer| :: mer[i] < '\U{80}'
    ensures Spaced(head + space + mer) == head + Spaced(space) + mer
  {
    SpacedAppend(head + space, mer);
    SpacedAppend(head, space);
    SpacedKeeps(head);
    SpacedKeeps(mer);
    hide Spaced;
  }

  lemma MeridiemIsAscii(mer: string)
    requires AmPm(mer).Some?
    ensures !IsSpace(mer[0]) && !IsSpace(mer[|mer| - 1]) && forall i | 0 <= i < |mer| :: mer[i] < '\U{80}'
  {
  }

  lemma SpacedIsBlank(s: string)
    requires Blank(s)
    ensures Blank(Spaced(s))
  {
  }

  lemma {:induction false} DropLeading(space: string, s: string)
    requires Blank(space) && s != "" && !IsSpace(s[0])
    ensures DropSpaces(space + s) == s
  {
    if space == "" {
      assert space + s == s;
    } else {
      assert (space + s)[1..] == space[1..] + s;
      DropLeading(space[1..], s);
    }
  }

  // ---- One day's hours ------------------------------------------------------------------------

  const CLOSED: string := "closed"
  const OPEN_24H: string := "open_24h"

  predicate ClosedIn(s: string) {
    s == "closed" || s == "fechado" || s == "fechada"
  }

  predicate AllDayIn(s: string) {
    s == "open 24 hours" || s == "24 hours" || s == "aberto 24 horas" || s == "atendimento 24 horas" || s == "24 horas"
  }

  /** split(",") */
  function SplitComma(s: string): (r: seq<string>)
    ensures |r| >= 1
  {
    if s == "" then [""]
    else
      var rest := SplitComma(s[1..]);
      if s[0] == ',' then [""] + rest else [[s[0]] + rest[0]] + rest[1..]
  }

  predicate IsDash(c: char) {
    c == '-' || c == '\U{2013}' || c == '\U{2014}'
  }

  function FirstDash(s: string): (n: nat)
    ensures n <= |s| && (n < |s| ==> IsDash(s[n])) && forall i | 0 <= i < n :: !IsDash(s[i])
  {
    if s == "" || IsDash(s[0]) then 0 else 1 + FirstDash(s[1..])
  }

  /** What stands on both sides of the one dash; the spaces around it fall to the time's strip. */
  function OneDash(s: string): Option<(string, string)> {
    var i := FirstDash(s);
    if i == |s| || FirstDash(s[i + 1..]) < |s| - i - 1 then None else Some((s[..i], s[i + 1..]))
  }

  function Shift(chunk: string): Option<string> {
    var parts := OneDash(chunk);
    if parts.None? then None
    else
      var start, end := To24h(parts.value.0), To24h(parts.value.1);
      if start.None? || end.None? then None else Some(start.value + "-" + end.value)
  }

  function Shifts(chunks: seq<string>): (r: Option<seq<string>>)
    ensures r.Some? ==> |r.value| == |chunks|
  {
    if chunks == [] then Some([])
    else
      var before, last := Shifts(chunks[..|chunks| - 1]), Shift(chunks[|chunks| - 1]);
      if before.None? || last.None? then None else Some(before.value + [last.value])
  }

  /** ", ".join of the others, each with its separator. */
  function Tail(xs: seq<string>): string {
    if xs == [] then "" else ", " + xs[0] + Tail(xs[1..])
  }

  function Join(xs: seq<string>): string {
    if xs == [] then "" else xs[0] + Tail(xs[1..])
  }

  function Parsed(value: string): Option<string> {
    if ClosedIn(Fold(value)) then Some(CLOSED)
    else if AllDayIn(Fold(value)) then Some(OPEN_24H)
    else
      var shifts := Shifts(SplitComma(value));
      if shifts.None? then None else Some(Join(shifts.value))
  }

  method ParseHours(value: string) returns (r: Option<string>)
    ensures r == Parsed(value)
  {
    hide To24h, OneDash, SplitComma, Fold, ClosedIn, AllDayIn, Join;
    var folded := Fold(value);
    if ClosedIn(folded) { return Some(CLOSED); }
    if AllDayIn(folded) { return Some(OPEN_24H); }
    var chunks, shifts := SplitComma(value), [];
    for i := 0 to |chunks|
      invariant Shifts(chunks[..i]) == Some(shifts)
    {
      assert chunks[..i + 1][..i] == chunks[..i];
      var parts := OneDash(chunks[i]);
      var start, end := None, None;
      if parts.Some? {
        start, end := To24h(parts.value.0), To24h(parts.value.1);
      }
      if start.None? || end.None? {
        NoShift(chunks, i);
        return None;
      }
      shifts := shifts + [start.value + "-" + end.value];
    }
    assert chunks[..|chunks|] == chunks;
    return Some(Join(shifts));
  }

  lemma {:induction false} NoShift(chunks: seq<string>, i: nat)
    requires i < |chunks| && Shift(chunks[i]).None?
    ensures Shifts(chunks).None?
    decreases |chunks|
  {
    if i < |chunks| - 1 {
      NoShift(chunks[..|chunks| - 1], i);
    }
  }

  // The converter reads its own output.

  predicate IsShift(s: string) {
    |s| == 11 && IsClock(s[..5]) && s[5] == '-' && IsClock(s[6..])
  }

  lemma ShiftWrites(chunk: string)
    ensures Shift(chunk).Some? ==> IsShift(Shift(chunk).value)
  {
    hide To24h, OneDash;
    if Shift(chunk).Some? {
      var parts := OneDash(chunk).value;
      var s, a, b := Shift(chunk).value, To24h(parts.0).value, To24h(parts.1).value;
      assert s[..5] == a && s[6..] == b;
    }
  }

  lemma {:induction false} ShiftsWrite(chunks: seq<string>)
    ensures Shifts(chunks).Some? ==> forall x | x in Shifts(chunks).value :: IsShift(x)
  {
    if chunks != [] {
      ShiftsWrite(chunks[..|chunks| - 1]);
      ShiftWrites(chunks[|chunks| - 1]);
    }
  }

  lemma {:induction false} DashIsAt(s: string, n: nat)
    requires n <= |s| && (n < |s| ==> IsDash(s[n])) && forall i | 0 <= i < n :: !IsDash(s[i])
    ensures FirstDash(s) == n
  {
    if n > 0 {
      DashIsAt(s[1..], n - 1);
    }
  }

  lemma NoDashInClock(s: string)
    requires IsClock(s)
    ensures forall i | 0 <= i < |s| :: !IsDash(s[i])
    ensures To24h(" " + s) == To24h(s)
  {
    assert (" " + s)[1..] == s && DropSpaces(" " + s) == DropSpaces(s);
    assert Strip(" " + s) == Strip(s);
    hide Meridiem, Military, Strip, Spaced;
  }

  lemma OneDashBetween(a: string, b: string)
    requires (forall i | 0 <= i < |a| :: !IsDash(a[i])) && (forall i | 0 <= i < |b| :: !IsDash(b[i]))
    ensures OneDash(a + "-" + b) == Some((a, b))
  {
    var u := a + "-" + b;
    assert u[..|a|] == a && u[|a| + 1..] == b && u[|a|] == '-';
    DashIsAt(u, |a|);
    DashIsAt(b, |b|);
  }

  lemma ShiftOf(token: string, start: string, end: string)
    requires To24h(token) == Some(start) && To24h(end) == Some(end)
    requires (forall i | 0 <= i < |token| :: !IsDash(token[i])) && (forall i | 0 <= i < |end| :: !IsDash(end[i]))
    ensures Shift(token + "-" + end) == Some(start + "-" + end)
  {
    OneDashBetween(token, end);
    hide To24h, OneDash, IsDash;
  }

  lemma ShiftIsRead(s: string)
    requires IsShift(s)
    ensures Shift(s) == Some(s) && Shift(" " + s) == Some(s)
  {
    hide To24h, Shift;
    var a, b := s[..5], s[6..];
    assert s == a + "-" + b;
    assert " " + s == (" " + a) + "-" + b;
    NoDashInClock(a);
    NoDashInClock(b);
    ClockIsRead(a);
    ClockIsRead(b);
    hide IsClock;
    ShiftOf(a, a, b);
    ShiftOf(" " + a, a, b);
  }

  lemma {:induction false} SplitAtComma(x: string, rest: string)
    requires forall i | 0 <= i < |x| :: x[i] != ','
    ensures SplitComma(x) == [x]
    ensures SplitComma(x + "," + rest) == [x] + SplitComma(rest)
  {
    if x == "" {
      assert x + "," + rest == "," + rest && ("," + rest)[1..] == rest;
    } else {
      SplitAtComma(x[1..], rest);
      assert (x + "," + rest)[1..] == x[1..] + "," + rest;
      assert x == [x[0]] + x[1..];
    }
  }

  lemma Regroup(a: string, b: string, c: string, d: string)
    ensures a + (b + (", " + c + d)) == (a + b) + "," + (" " + (c + d))
  {
    assert ", " == "," + " ";
    assert b + (", " + c + d) == b + "," + (" " + (c + d));
  }

  lemma JoinedTwo(xs: seq<string>, pre: string)
    requires |xs| >= 2
    ensures pre + Join(xs) == (pre + xs[0]) + "," + (" " + Join(xs[1..]))
  {
    var rest := xs[1..];
    Regroup(pre, xs[0], rest[0], Tail(rest[1..]));
    assert Tail(rest) == ", " + rest[0] + Tail(rest[1..]);
  }

  lemma JoinedOne(x: string, pre: string)
    ensures pre + Join([x]) == pre + x
  {
    assert [x][1..] == [];
  }

  /** Splitting the joined shifts gives them back, all but the first after a space. */
  lemma {:induction false} SplitJoined(xs: seq<string>, pre: string)
    requires xs != [] && (forall x | x in xs :: IsShift(x)) && (pre == "" || pre == " ")
    ensures var chunks := SplitComma(pre + Join(xs));
      && |chunks| == |xs| && chunks[0] == pre + xs[0]
      && forall i | 1 <= i < |xs| :: chunks[i] == " " + xs[i]
  {
    var first := pre + xs[0];
    assert IsShift(xs[0]);
    NoCommaInShift(xs[0]);
    assert forall i | 0 <= i < |first| :: first[i] != ',';
    hide IsShift, SplitComma, Join, Tail;
    if |xs| == 1 {
      JoinedOne(xs[0], pre);
      assert xs == [xs[0]];
      SplitAtComma(first, "");
    } else {
      JoinedTwo(xs, pre);
      SplitJoined(xs[1..], " ");
      SplitAtComma(first, " " + Join(xs[1..]));
      OneChunkMore(xs, first, SplitComma(" " + Join(xs[1..])));
    }
  }

  lemma OneChunkMore(xs: seq<string>, first: string, rest: seq<string>)
    requires |xs| > 1 && |rest| == |xs| - 1 && rest[0] == " " + xs[1]
    requires forall i | 1 <= i < |rest| :: rest[i] == " " + xs[1..][i]
    ensures forall i | 1 <= i < |xs| :: ([first] + rest)[i] == " " + xs[i]
  {
    forall i | 1 <= i < |xs| ensures ([first] + rest)[i] == " " + xs[i] {
      assert ([first] + rest)[i] == rest[i - 1] && xs[1..][i - 1] == xs[i];
    }
  }

  lemma NoCommaInShift(s: string)
    requires IsShift(s)
    ensures forall i | 0 <= i < |s| :: s[i] != ','
  {
    assert forall j | 0 <= j < 5 :: s[..5][j] == s[j] && s[6..][j] == s[j + 6];
  }

  lemma {:induction false} ShiftsAreRead(xs: seq<string>, chunks: seq<string>)
    requires |xs| == |chunks|
    requires forall i | 0 <= i < |xs| :: IsShift(xs[i]) && (chunks[i] == xs[i] || chunks[i] == " " + xs[i])
    ensures Shifts(chunks) == Some(xs)
  {
    hide IsShift, Shift;
    if xs != [] {
      var n := |xs| - 1;
      ShiftsAreRead(xs[..n], chunks[..n]);
      ShiftIsRead(xs[n]);
      assert xs == xs[..n] + [xs[n]];
    }
  }

  predicate Written(c: char) {
    Digit(c) || c == ':' || c == '-' || c == ',' || c == ' '
  }

  lemma ShiftIsWritten(s: string)
    requires IsShift(s)
    ensures forall i | 0 <= i < |s| :: Written(s[i])
  {
    assert forall j | 0 <= j < 5 :: s[..5][j] == s[j] && s[6..][j] == s[j + 6];
  }

  lemma {:induction false} JoinIsWritten(xs: seq<string>)
    requires forall x | x in xs :: IsShift(x)
    ensures forall i | 0 <= i < |Tail(xs)| :: Written(Tail(xs)[i])
    ensures xs != [] ==> Digit(Tail(xs)[|Tail(xs)| - 1])
  {
    if xs != [] {
      ShiftIsWritten(xs[0]);
      JoinIsWritten(xs[1..]);
      assert xs[0][10] == xs[0][6..][4];
    }
  }

  lemma JoinedReads(xs: seq<string>)
    requires xs != [] && forall x | x in xs :: IsShift(x)
    ensures var s := Join(xs);
      && |s| >= 11 && s[2] == ':' && s[5] == '-' && Digit(s[0]) && Digit(s[|s| - 1])
      && forall i | 0 <= i < |s| :: Written(s[i])
  {
    var x := xs[0];
    assert IsShift(x);
    ShiftIsWritten(x);
    JoinIsWritten(xs[1..]);
    assert x[0] == x[..5][0] && x[2] == x[..5][2] && x[10] == x[6..][4];
  }

  lemma WrittenFolds(s: string)
    requires s != "" && Digit(s[0]) && Digit(s[|s| - 1]) && forall i | 0 <= i < |s| :: Written(s[i])
    ensures Fold(s) == s
  {
    DigitsAreNoSpaces(s[0]);
    DigitsAreNoSpaces(s[|s| - 1]);
    StripKeeps(s);
    FoldsTo(s, s);
  }

  lemma JoinedIsNoToken(xs: seq<string>)
    requires xs != [] && forall x | x in xs :: IsShift(x)
    ensures !ClosedIn(Fold(Join(xs))) && !AllDayIn(Fold(Join(xs)))
  {
    JoinedReads(xs);
    WrittenFolds(Join(xs));
    hide Join, Fold, IsShift, Written;
  }

  lemma ClosedFolds()
    ensures Fold(CLOSED) == CLOSED
  {
    StripKeeps(CLOSED);
    FoldsTo(CLOSED, CLOSED);
  }

  lemma Open24hFolds()
    ensures Fold(OPEN_24H) == OPEN_24H
  {
    StripKeeps(OPEN_24H);
    FoldsTo(OPEN_24H, OPEN_24H);
  }

  lemma TokensParse()
    ensures Parsed(CLOSED) == Some(CLOSED) && Parsed(OPEN_24H).None?
  {
    ClosedFolds();
    Open24hFolds();
    NoDashInToken();
    hide Fold, Shifts, SplitComma;
  }

  lemma JoinedParses(xs: seq<string>)
    requires xs != [] && forall x | x in xs :: IsShift(x)
    ensures Parsed(Join(xs)) == Some(Join(xs)) && Join(xs) != OPEN_24H
  {
    hide IsShift, Fold, Shifts, SplitComma, Join, ClosedIn, AllDayIn;
    JoinedReads(xs);
    assert OPEN_24H[5] == '2';
    JoinedIsNoToken(xs);
    SplitJoined(xs, "");
    assert "" + Join(xs) == Join(xs) && "" + xs[0] == xs[0];
    ShiftsAreRead(xs, SplitComma(Join(xs)));
  }

  /** The parser reads its own output as itself, shifts and "closed" alike; only "open_24h" it
      does not read at all. */
  lemma ParserReadsItsOutput(value: string)
    requires Parsed(value).Some?
    ensures var out := Parsed(value).value;
      && (Parsed(out) == Some(out) <==> out != OPEN_24H)
      && (out == OPEN_24H ==> Parsed(out).None?)
  {
    if ClosedIn(Fold(value)) || AllDayIn(Fold(value)) {
      TokensParse();
    } else {
      ShiftsWrite(SplitComma(value));
      JoinedParses(Shifts(SplitComma(value)).value);
    }
    hide Parsed;
  }

  lemma NoDashInToken()
    ensures Shifts(SplitComma(OPEN_24H)).None?
  {
    var token := OPEN_24H;
    OnlyWord(token);
    assert [token] == SplitComma(token);
    hide SplitComma, Shift, Shifts;
    NoShift([token], 0);
  }

  lemma OnlyWord(token: string)
    requires forall i | 0 <= i < |token| :: token[i] != ',' && !IsDash(token[i])
    ensures SplitComma(token) == [token] && Shift(token).None?
  {
    SplitAtComma(token, "");
    DashIsAt(token, |token|);
    hide SplitComma, To24h;
  }

  // ---- The week -------------------------------------------------------------------------------

  const DAY_KEYS: seq<string> := ["mon", "tue", "wed", "thu", "fri", "sat", "sun"]
  const ALL_DAYS_KEY: string := "daily"

  /** _DAY_INDEX */
  function DayNamed(s: string): (d: Option<nat>)
    ensures d.Some? ==> d.value < 7
  {
    if s == "monday" || s == "segunda" then Some(0)
    else if s == "tuesday" || s == "terca" then Some(1)
    else if s == "wednesday" || s == "quarta" then Some(2)
    else if s == "thursday" || s == "quinta" then Some(3)
    else if s == "friday" || s == "sexta" then Some(4)
    else if s == "saturday" || s == "sabado" then Some(5)
    else if s == "sunday" || s == "domingo" then Some(6)
    else None
  }

  function DayIndex(named: string): (d: Option<nat>)
    ensures d.Some? ==> d.value < 7
  {
    DayNamed(NoFeira(Fold(named)))
  }

  lemma {:induction false} WithoutNothing(s: string, w: string)
    requires w != "" && forall i | 0 <= i < |s| :: s[i] != w[0]
    ensures Without(s, w) == s && Without(s + w, w) == s
  {
    if s == "" {
      assert s + w == w && w[|w|..] == "";
    } else {
      WithoutNothing(s[1..], w);
      assert (s + w)[1..] == s[1..] + w && (s + w)[0] == s[0];
      assert s == [s[0]] + s[1..];
    }
  }

  predicate Letters(s: string) {
    s != "" && forall i | 0 <= i < |s| :: 'a' <= s[i] <= 'z'
  }

  predicate FoldsAs(name: string, plain: string) {
    |name| == |plain| && forall i | 0 <= i < |name| :: FoldChar(name[i]) == [plain[i]]
  }

  lemma FoldsAsAppend(a: string, b: string, a': string, b': string)
    requires FoldsAs(a, a') && FoldsAs(b, b')
    ensures FoldsAs(a + b, a' + b')
  {
    hide FoldChar;
  }

  lemma NameFolds(name: string, plain: string)
    requires FoldsAs(name, plain) && name != "" && 'a' <= plain[0] <= 'z' && 'a' <= plain[|plain| - 1] <= 'z'
    ensures Fold(name) == plain
  {
    assert FoldChar(name[0]) == [plain[0]] && FoldChar(name[|name| - 1]) == [plain[|plain| - 1]];
    assert !IsSpace(name[0]) && !IsSpace(name[|name| - 1]);
    StripKeeps(name);
    FoldsTo(name, plain);
  }

  /** The endings the parser takes off: "-feira" and " feira". */
  predicate Feira(ending: string) {
    ending == "-feira" || ending == " feira"
  }

  lemma FeiraFolds(ending: string)
    requires Feira(ending)
    ensures FoldsAs(ending, ending) && |ending| == 6 && ending[5] == 'a'
  {
  }

  function NoFeira(s: string): string {
    Strip(Without(Without(s, "-feira"), " feira"))
  }

  lemma FeiraGoes(plain: string)
    requires Letters(plain)
    ensures NoFeira(plain) == NoFeira(plain + "-feira") == NoFeira(plain + " feira") == plain
  {
    hide NoFeira;
    DashedGoes(plain);
    SpacedGoes(plain);
  }

  lemma DashedGoes(plain: string)
    requires Letters(plain)
    ensures NoFeira(plain) == NoFeira(plain + "-feira") == plain
  {
    var dashed, spaced := "-feira", " feira";
    assert dashed[0] == '-' && spaced[0] == ' ';
    WithoutNothing(plain, dashed);
    WithoutNothing(plain, spaced);
    StripKeeps(plain);
    hide Without, Strip, Letters;
  }

  lemma SpacedGoes(plain: string)
    requires Letters(plain)
    ensures NoFeira(plain + " feira") == plain
  {
    var dashed, spaced := "-feira", " feira";
    assert dashed[0] == '-' && spaced[0] == ' ';
    WithoutNothing(plain, spaced);
    NoDashHere(plain, spaced);
    WithoutNothing(plain + spaced, dashed);
    StripKeeps(plain);
    hide Without, Strip, Letters;
  }

  lemma NoDashHere(plain: string, spaced: string)
    requires Letters(plain) && spaced == " feira"
    ensures forall i | 0 <= i < |plain + spaced| :: (plain + spaced)[i] != '-'
  {
  }

  lemma FoldsWithFeira(name: string, plain: string, ending: string)
    requires Letters(plain) && FoldsAs(name, plain) && Feira(ending)
    ensures Fold(name + ending) == plain + ending
  {
    FeiraFolds(ending);
    FoldsAsAppend(name, ending, plain, ending);
    assert (plain + ending)[|plain + ending| - 1] == ending[5] == 'a';
    hide FoldsAs, Fold;
    NameFolds(name + ending, plain + ending);
  }

  /** A day name is read by its letters, whatever their case and accents, with or without the
      Portuguese "-feira" or " feira". */
  lemma DayNameIsRead(name: string, plain: string)
    requires Letters(plain) && FoldsAs(name, plain)
    ensures DayIndex(name) == DayIndex(name + "-feira") == DayIndex(name + " feira") == DayNamed(plain)
  {
    LettersEnds(plain);
    assert name != "";
    hide Strip, Fold, FoldsAs, Without, DayNamed, Letters;
    NameFolds(name, plain);
    FoldsWithFeira(name, plain, "-feira");
    FoldsWithFeira(name, plain, " feira");
    FeiraGoes(plain);
  }

  lemma LettersEnds(plain: string)
    requires Letters(plain)
    ensures plain != "" && 'a' <= plain[0] <= 'z' && 'a' <= plain[|plain| - 1] <= 'z'
  {
  }

  const ENGLISH: seq<string> := ["monday", "tuesday", "wednesday", "thursday", "friday", "saturday", "sunday"]
  const PORTUGUESE: seq<string> := ["segunda", "terca", "quarta", "quinta", "sexta", "sabado", "domingo"]

  /** Every spelling of a day in either language is read as that day: in any case, with accents
      or without, and with or without "feira". */
  lemma TheDaysAreRead(d: nat, name: string)
    requires d < 7 && (FoldsAs(name, ENGLISH[d]) || FoldsAs(name, PORTUGUESE[d]))
    ensures DayIndex(name) == DayIndex(name + "-feira") == DayIndex(name + " feira") == Some(d)
  {
    TheDaysAreNamed(d);
    hide FoldsAs, Letters, DayNamed, DayIndex;
    if FoldsAs(name, ENGLISH[d]) { DayNameIsRead(name, ENGLISH[d]); } else { DayNameIsRead(name, PORTUGUESE[d]); }
  }

  lemma TheDaysAreNamed(d: nat)
    requires d < 7
    ensures Letters(ENGLISH[d]) && DayNamed(ENGLISH[d]) == Some(d)
    ensures Letters(PORTUGUESE[d]) && DayNamed(PORTUGUESE[d]) == Some(d)
  {
    hide Letters, DayNamed;
    if d < 3 { FirstDaysAreNamed(d); } else { LastDaysAreNamed(d); }
  }

  lemma FirstDaysAreNamed(d: nat)
    requires d < 3
    ensures Letters(ENGLISH[d]) && DayNamed(ENGLISH[d]) == Some(d)
    ensures Letters(PORTUGUESE[d]) && DayNamed(PORTUGUESE[d]) == Some(d)
  {
    if d == 0 { assert DayNamed("monday") == DayNamed("segunda") == Some(0); }
    else if d == 1 { assert DayNamed("tuesday") == DayNamed("terca") == Some(1); }
    else { assert DayNamed("wednesday") == DayNamed("quarta") == Some(2); }
  }

  lemma LastDaysAreNamed(d: nat)
    requires 3 <= d < 7
    ensures Letters(ENGLISH[d]) && DayNamed(ENGLISH[d]) == Some(d)
    ensures Letters(PORTUGUESE[d]) && DayNamed(PORTUGUESE[d]) == Some(d)
  {
    if d == 3 { assert DayNamed("thursday") == DayNamed("quinta") == Some(3); }
    else if d == 4 { assert DayNamed("friday") == DayNamed("sexta") == Some(4); }
    else if d == 5 { assert DayNamed("saturday") == DayNamed("sabado") == Some(5); }
    else { assert DayNamed("sunday") == DayNamed("domingo") == Some(6); }
  }

  /** partition(":") */
  function FirstColon(s: string): (n: nat)
    ensures n <= |s| && (n < |s| ==> s[n] == ':') && forall i | 0 <= i < n :: s[i] != ':'
  {
    if s == "" || s[0] == ':' then 0 else 1 + FirstColon(s[1..])
  }

  /** The day a line names and its hours; None fails the whole week. */
  function LineOf(line: string): (r: Option<(nat, string)>)
    ensures r.Some? ==> r.value.0 < 7
  {
    var n := FirstColon(line);
    if n == |line| then None
    else
      var day, hours := DayIndex(line[..n]), Parsed(line[n + 1..]);
      if day.None? || hours.None? then None else Some((day.value, hours.value))
  }

  /** The last line that names a day says these hours. */
  ghost predicate LastSays(lines: seq<string>, day: nat, i: nat, hours: string) {
    && i < |lines| && LineOf(lines[i]) == Some((day, hours))
    && forall j | i < j < |lines| && LineOf(lines[j]).Some? :: LineOf(lines[j]).value.0 != day
  }

  ghost predicate Said(lines: seq<string>, day: nat, hours: string) {
    exists i | 0 <= i < |lines| :: LastSays(lines, day, i, hours)
  }

  /** The week the lines spell: every line reads, every day is named, the last line naming it wins. */
  ghost predicate Spells(lines: seq<string>, week: seq<string>) {
    && |week| == 7 && (forall i | 0 <= i < |lines| :: LineOf(lines[i]).Some?)
    && forall day | 0 <= day < 7 :: Said(lines, day, week[day])
  }

  // ---- Runs of days ---------------------------------------------------------------------------

  function KeyName(first: nat, last: nat): string
    requires first <= last < 7
  {
    if first == last then DAY_KEYS[first] else DAY_KEYS[first] + "_" + DAY_KEYS[last]
  }

  function DayOfKey(s: string): (d: Option<nat>)
    ensures d.Some? ==> d.value < 7
  {
    if s == "mon" then Some(0) else if s == "tue" then Some(1) else if s == "wed" then Some(2)
    else if s == "thu" then Some(3) else if s == "fri" then Some(4) else if s == "sat" then Some(5)
    else if s == "sun" then Some(6) else None
  }

  /** The days a key stands for, first and last. */
  function Days(key: string): Option<(nat, nat)> {
    if key == ALL_DAYS_KEY then Some((0, 6))
    else if |key| == 7 && key[3] == '_' then
      var a, b := DayOfKey(key[..3]), DayOfKey(key[4..]);
      if a.Some? && b.Some? then Some((a.value, b.value)) else None
    else
      var a := DayOfKey(key);
      if a.Some? then Some((a.value, a.value)) else None
  }

  lemma DayKeyIsRead(d: nat)
    requires d < 7
    ensures |DAY_KEYS[d]| == 3 && DayOfKey(DAY_KEYS[d]) == Some(d)
  {
  }

  lemma KeyIsRead(first: nat, last: nat)
    requires first <= last < 7
    ensures Days(KeyName(first, last)) == Some((first, last)) && KeyName(first, last) != ALL_DAYS_KEY
  {
    DayKeyIsRead(first);
    DayKeyIsRead(last);
    var key := KeyName(first, last);
    if first != last {
      assert key[..3] == DAY_KEYS[first] && key[4..] == DAY_KEYS[last] && key[3] == '_';
    }
    hide DayOfKey;
  }

  /** The map in its order of insertion. */
  type HoursMap = seq<(string, string)>

  predicate Names(e: (string, string), first: nat, last: nat) {
    Days(e.0) == Some((first, last)) && first <= last < 7
  }

  function First(e: (string, string)): nat {
    if Days(e.0).Some? then Days(e.0).value.0 else 0
  }

  /** The entries name the days 0 to `next` - 1 in order, once each, with their hours, in runs that
      cannot be longer. */
  predicate Runs(week: seq<string>, m: HoursMap, next: nat)
    requires |week| == 7
  {
    if m == [] then next == 0
    else
      var e := m[|m| - 1];
      && next > 0 && Names(e, First(e), next - 1)
      && (forall d | First(e) <= d < next :: week[d] == e.1)
      && (|m| > 1 ==> m[|m| - 2].1 != e.1)
      && Runs(week, m[..|m| - 1], First(e))
  }

  predicate Keyed(key: string) {
    exists a, b | 0 <= a < 7 && 0 <= b < 7 :: IsKey(key, a, b)
  }

  predicate IsKey(key: string, a: nat, b: nat) {
    a <= b < 7 && key == KeyName(a, b)
  }

  predicate Uniform(week: seq<string>)
    requires |week| == 7
  {
    forall d | 0 <= d < 7 :: week[d] == week[0]
  }

  /** The encoding of a week: maximal runs of all seven days, keyed by day names, or by "daily" iff
      the days all agree. */
  predicate Encodes(week: seq<string>, m: HoursMap)
    requires |week| == 7
  {
    && Runs(week, m, 7)
    && forall e | e in m :: if Uniform(week) then e.0 == ALL_DAYS_KEY else Keyed(e.0)
  }

  lemma KeyIsKeyed(a: nat, b: nat)
    requires a <= b < 7
    ensures Keyed(KeyName(a, b))
  {
    assert IsKey(KeyName(a, b), a, b);
  }

  lemma AppendRun(week: seq<string>, m: HoursMap, start: nat, next: nat, key: string)
    requires |week| == 7 && start < next <= 7 && Runs(week, m, start) && Days(key) == Some((start, next - 1))
    requires forall d | start <= d < next :: week[d] == week[start]
    requires m != [] ==> m[|m| - 1].1 != week[start]
    ensures Runs(week, m + [(key, week[start])], next)
  {
    hide Days;
    assert (m + [(key, week[start])])[..|m|] == m;
  }

  /** The runs before `start` are written; from `start` to before `i` the hours have not changed. */
  ghost predicate Scanned(week: seq<string>, m: HoursMap, start: nat, i: nat)
    requires |week| == 7
  {
    && start < i <= 7 && Runs(week, m, start)
    && (forall d | start <= d < i :: week[d] == week[start])
    && (m != [] ==> m[|m| - 1].1 != week[start])
    && (forall e | e in m :: Keyed(e.0))
  }

  lemma WriteRun(week: seq<string>, m: HoursMap, start: nat, i: nat, key: string)
    requires |week| == 7 && Scanned(week, m, start, i) && (i < 7 ==> week[i] != week[start])
    requires Days(key) == Some((start, i - 1)) && Keyed(key)
    ensures var m' := m + [(key, week[start])];
      && (i < 7 ==> Scanned(week, m', i, i + 1))
      && (i == 7 ==> Runs(week, m', 7) && forall e | e in m' :: Keyed(e.0))
  {
    hide Runs, Keyed, Days;
    AppendRun(week, m, start, i, key);
  }

  method RunLengths(week: seq<string>) returns (m: HoursMap)
    requires |week| == 7
    ensures Encodes(week, m)
  {
    if forall d | 0 <= d < 7 :: week[d] == week[0] {
      DailyEncodes(week);
      return [(ALL_DAYS_KEY, week[0])];
    }
    hide Runs, Keyed, KeyName, Days, Scanned;
    m := [];
    var start := 0;
    FirstScanned(week);
    for i := 1 to 8
      invariant i < 8 ==> start < i && Scanned(week, m, start, i)
      invariant i == 8 ==> Runs(week, m, 7) && forall e | e in m :: Keyed(e.0)
    {
      if i == 7 || week[i] != week[start] {
        var key := KeyName(start, i - 1);
        KeyIsRead(start, i - 1);
        KeyIsKeyed(start, i - 1);
        WriteRun(week, m, start, i, key);
        m := m + [(key, week[start])];
        start := i;
      } else {
        ScannedMore(week, m, start, i);
      }
    }
  }

  lemma FirstScanned(week: seq<string>)
    requires |week| == 7
    ensures Scanned(week, [], 0, 1)
  {
    NoRuns(week);
  }

  lemma ScannedMore(week: seq<string>, m: HoursMap, start: nat, i: nat)
    requires |week| == 7 && start < i < 7 && Scanned(week, m, start, i) && week[i] == week[start]
    ensures Scanned(week, m, start, i + 1)
  {
    hide Runs, Keyed;
  }

  lemma DailyEncodes(week: seq<string>)
    requires |week| == 7 && Uniform(week)
    ensures Encodes(week, [(ALL_DAYS_KEY, week[0])])
  {
    var m := [(ALL_DAYS_KEY, week[0])];
    assert m[..|m| - 1] == [] && m[0] == (ALL_DAYS_KEY, week[0]);
    assert Days(ALL_DAYS_KEY) == Some((0, 6));
    hide Days;
    NoRuns(week);
  }

  lemma NoRuns(week: seq<string>)
    requires |week| == 7
    ensures Runs(week, [], 0)
  {
  }

  predicate Covers(e: (string, string), day: nat) {
    Days(e.0).Some? && Days(e.0).value.0 <= day <= Days(e.0).value.1
  }

  /** Expanding the runs gives each day once, with its hours. */
  lemma {:induction false} EachDayOnce(week: seq<string>, m: HoursMap, next: nat, day: nat) returns (i: nat)
    requires |week| == 7 && Runs(week, m, next) && day < next
    ensures i < |m| && Covers(m[i], day) && m[i].1 == week[day]
    ensures forall j | 0 <= j < |m| && Covers(m[j], day) :: j == i
    decreases |m|
  {
    hide Days;
    var n, first := |m| - 1, First(m[|m| - 1]);
    if day >= first {
      i := n;
      forall j | 0 <= j < n ensures !Covers(m[j], day) {
        EarlierRuns(week, m[..n], first, j);
        assert m[..n][j] == m[j];
      }
    } else {
      i := EachDayOnce(week, m[..n], first, day);
      forall j | 0 <= j < |m| && Covers(m[j], day) ensures j == i {
        if j < n { assert m[..n][j] == m[j]; }
      }
    }
  }

  lemma {:induction false} EarlierRuns(week: seq<string>, m: HoursMap, next: nat, j: nat)
    requires |week| == 7 && Runs(week, m, next) && j < |m|
    ensures forall day | day >= next :: !Covers(m[j], day)
    decreases |m|
  {
    hide Days;
    var n := |m| - 1;
    if j < n {
      EarlierRuns(week, m[..n], First(m[n]), j);
      assert m[..n][j] == m[j];
    }
  }

  /** The runs of a week are unique, up to how a run spells its days. */
  lemma {:induction false} RunsAreUnique(week: seq<string>, m: HoursMap, m': HoursMap, next: nat)
    requires |week| == 7 && Runs(week, m, next) && Runs(week, m', next)
    ensures |m| == |m'| && forall i | 0 <= i < |m| :: Days(m[i].0) == Days(m'[i].0) && m[i].1 == m'[i].1
    decreases |m|
  {
    hide Days;
    if next > 0 {
      var n, n' := |m| - 1, |m'| - 1;
      var first, first' := First(m[n]), First(m'[n']);
      RunStartsWhereHoursChange(week, m, next);
      RunStartsWhereHoursChange(week, m', next);
      assert first == first';
      RunsAreUnique(week, m[..n], m'[..n'], first);
      forall i | 0 <= i < n ensures m[i] == m[..n][i] && m'[i] == m'[..n'][i] {}
    }
  }

  lemma RunStartsWhereHoursChange(week: seq<string>, m: HoursMap, next: nat)
    requires |week| == 7 && Runs(week, m, next) && next > 0
    ensures var e := m[|m| - 1];
      && First(e) < next <= 7 && e.1 == week[next - 1]
      && (forall d | First(e) <= d < next :: week[d] == week[next - 1])
      && (First(e) > 0 ==> week[First(e) - 1] != week[next - 1])
  {
    hide Days;
    var n := |m| - 1;
    if First(m[n]) > 0 {
      assert m[..n][n - 1] == m[n - 1];
    }
  }

  /** Two weeks with one encoding are the same week, and one week has one encoding. */
  lemma EncodingIsExact(week: seq<string>, week': seq<string>, m: HoursMap, m': HoursMap)
    requires |week| == 7 == |week'| && Encodes(week, m) && Encodes(week', m')
    ensures m == m' <==> week == week'
  {
    if m == m' {
      forall day | 0 <= day < 7 ensures week[day] == week'[day] {
        var i := EachDayOnce(week, m, 7, day);
        var i' := EachDayOnce(week', m, 7, day);
      }
    }
    if week == week' {
      RunsAreUnique(week, m, m', 7);
      forall i | 0 <= i < |m| ensures m[i] == m'[i] {
        KeysAgree(week, m, m', i);
      }
    }
  }

  lemma KeysAgree(week: seq<string>, m: HoursMap, m': HoursMap, i: nat)
    requires |week| == 7 && Encodes(week, m) && Encodes(week, m') && i < |m| == |m'|
    requires forall j | 0 <= j < |m| :: Days(m[j].0) == Days(m'[j].0)
    ensures m[i].0 == m'[i].0
  {
    assert m[i] in m && m'[i] in m';
    if !Uniform(week) {
      var a, b :| 0 <= a < 7 && 0 <= b < 7 && IsKey(m[i].0, a, b);
      var a', b' :| 0 <= a' < 7 && 0 <= b' < 7 && IsKey(m'[i].0, a', b');
      KeyIsRead(a, b);
      KeyIsRead(a', b');
    }
    hide Days, KeyName, Runs;
  }

  // ---- to_hours_map ---------------------------------------------------------------------------

  /** The hours by day after some lines. */
  ghost predicate Filed(lines: seq<string>, byIndex: map<nat, string>) {
    && (forall i | 0 <= i < |lines| :: LineOf(lines[i]).Some? && LineOf(lines[i]).value.0 in byIndex)
    && (forall day | day in byIndex :: day < 7 && Said(lines, day, byIndex[day]))
  }

  lemma LastSaysStill(lines: seq<string>, n: nat, day: nat, i: nat, hours: string)
    requires n < |lines| && LineOf(lines[n]).Some? && LineOf(lines[n]).value.0 != day
    requires LastSays(lines[..n], day, i, hours)
    ensures LastSays(lines[..n + 1], day, i, hours)
  {
    hide LineOf;
    assert forall j | 0 <= j < n :: lines[..n + 1][j] == lines[..n][j];
  }

  lemma FiledOneMore(lines: seq<string>, n: nat, byIndex: map<nat, string>)
    requires n < |lines| && Filed(lines[..n], byIndex) && LineOf(lines[n]).Some?
    ensures Filed(lines[..n + 1], byIndex[LineOf(lines[n]).value.0 := LineOf(lines[n]).value.1])
  {
    hide LineOf;
    var more, today, hours := lines[..n + 1], LineOf(lines[n]).value.0, LineOf(lines[n]).value.1;
    assert more[n] == lines[n] && forall i | 0 <= i < n :: more[i] == lines[..n][i];
    assert LastSays(more, today, n, hours);
    forall day | day in byIndex && day != today
      ensures Said(more, day, byIndex[day])
    {
      var i :| 0 <= i < n && LastSays(lines[..n], day, i, byIndex[day]);
      LastSaysStill(lines, n, day, i, byIndex[day]);
    }
    hide LastSays;
  }

  lemma SevenDays(s: set<nat>)
    requires forall d | d in s :: d < 7
    ensures |s| == 7 <==> forall d | 0 <= d < 7 :: d in s
  {
    var all: set<nat> := {0, 1, 2, 3, 4, 5, 6};
    assert s <= all;
    assert |all - s| == 7 - |s|;
    assert all - s == {} <==> forall d | 0 <= d < 7 :: d in s;
  }

  /** None iff some line does not read or some day is missing; otherwise the encoding of the week
      the lines spell. */
  method ToHoursMap(weekdayText: Option<seq<string>>) returns (r: Option<HoursMap>)
    ensures r.None? ==> weekdayText.None? || forall week :: !Spells(weekdayText.value, week)
    ensures r.Some? ==> weekdayText.Some? && exists week :: Spells(weekdayText.value, week) && Encodes(week, r.value)
  {
    hide Encodes, Filed;
    if weekdayText.None? { return None; }
    var lines := weekdayText.value;
    NothingFiled();
    if lines == [] {
      var none: map<nat, string> := map[];
      assert 0 !in none;
      NotAWeek([], none);
      return None;
    }
    var byIndex: map<nat, string> := map[];
    for n := 0 to |lines|
      invariant Filed(lines[..n], byIndex)
    {
      var line := lines[n];
      var colon := FirstColon(line);
      if colon == |line| {
        assert LineOf(lines[n]).None?;
        return None;
      }
      var day := DayIndex(line[..colon]);
      var hours := ParseHours(line[colon + 1..]);
      if day.None? || hours.None? {
        assert LineOf(lines[n]).None?;
        return None;
      }
      FiledOneMore(lines, n, byIndex);
      byIndex := byIndex[day.value := hours.value];
    }
    assert lines[..|lines|] == lines;
    DaysFiled(lines, byIndex);
    if |byIndex.Keys| != 7 {
      NotAWeek(lines, byIndex);
      return None;
    }
    var week := seq(7, d requires 0 <= d < 7 => byIndex[d]);
    WeekIsSpelt(lines, byIndex, week);
    var m := RunLengths(week);
    return Some(m);
  }

  lemma NothingFiled()
    ensures Filed([], map[])
  {
  }

  lemma DaysFiled(lines: seq<string>, byIndex: map<nat, string>)
    requires Filed(lines, byIndex)
    ensures |byIndex.Keys| == 7 <==> forall d | 0 <= d < 7 :: d in byIndex
  {
    SevenDays(byIndex.Keys);
  }

  lemma WeekIsSpelt(lines: seq<string>, byIndex: map<nat, string>, week: seq<string>)
    requires Filed(lines, byIndex) && |week| == 7 && forall d | 0 <= d < 7 :: d in byIndex && week[d] == byIndex[d]
    ensures Spells(lines, week)
  {
    hide LineOf, Said;
    forall day | 0 <= day < 7 ensures Said(lines, day, week[day]) {
      assert day in byIndex;
    }
  }

  lemma NotAWeek(lines: seq<string>, byIndex: map<nat, string>)
    requires Filed(lines, byIndex) && !(forall d | 0 <= d < 7 :: d in byIndex)
    ensures forall week :: !Spells(lines, week)
  {
    hide LineOf;
    var d :| 0 <= d < 7 && d !in byIndex;
    forall i, hours | 0 <= i < |lines| ensures !LastSays(lines, d, i, hours) {}
    hide LastSays;
    forall week | |week| == 7 ensures !Spells(lines, week) {
      assert !Said(lines, d, week[d]);
    }
  }

  /** The week the lines spell is one: so the map is what that week's encoding is. */
  lemma SpelledWeekIsUnique(lines: seq<string>, week: seq<string>, week': seq<string>)
    requires Spells(lines, week) && Spells(lines, week')
    ensures week == week'
  {
    hide LineOf;
    forall d | 0 <= d < 7 ensures week[d] == week'[d] {
      var i :| 0 <= i < |lines| && LastSays(lines, d, i, week[d]);
      var i' :| 0 <= i' < |lines| && LastSays(lines, d, i', week'[d]);
    }
  }

  predicate IsNamed(line: string, day: nat) {
    LineOf(line).Some? && LineOf(line).value.0 == day
  }

  predicate NamedIn(lines: seq<string>, day: nat) {
    exists i | 0 <= i < |lines| :: IsNamed(lines[i], day)
  }

  predicate AllRead(lines: seq<string>) {
    forall i | 0 <= i < |lines| :: LineOf(lines[i]).Some?
  }

  lemma {:induction false} LastNamed(lines: seq<string>, day: nat)
    requires AllRead(lines) && NamedIn(lines, day)
    ensures exists hours :: Said(lines, day, hours)
  {
    hide LineOf;
    var n := |lines| - 1;
    if IsNamed(lines[n], day) {
      assert LastSays(lines, day, n, LineOf(lines[n]).value.1);
      assert Said(lines, day, LineOf(lines[n]).value.1);
    } else {
      var j :| 0 <= j < |lines| && IsNamed(lines[j], day);
      assert IsNamed(lines[..n][j], day);
      LastNamed(lines[..n], day);
      var hours :| Said(lines[..n], day, hours);
      var i :| 0 <= i < n && LastSays(lines[..n], day, i, hours);
      assert lines[..n + 1] == lines;
      LastSaysStill(lines, n, day, i, hours);
      assert Said(lines, day, hours);
    }
  }

  /** Some week is spelt exactly when every line reads and every day is named. */
  lemma AWeekIsSpeltIff(lines: seq<string>)
    ensures (exists week :: Spells(lines, week)) <==>
      (AllRead(lines) && forall day: nat | day < 7 :: NamedIn(lines, day))
  {
    hide LineOf;
    if AllRead(lines) && forall day: nat | day < 7 :: NamedIn(lines, day) {
      var week := BuildWeek(lines, 7);
      assert Spells(lines, week);
    }
    forall week | Spells(lines, week) ensures forall day: nat | day < 7 :: NamedIn(lines, day) {
      forall day: nat | day < 7 ensures NamedIn(lines, day) {
        assert Said(lines, day, week[day]);
        var i :| 0 <= i < |lines| && LastSays(lines, day, i, week[day]);
        assert IsNamed(lines[i], day);
      }
    }
  }

  lemma {:induction false} BuildWeek(lines: seq<string>, n: nat) returns (week: seq<string>)
    requires n <= 7 && AllRead(lines) && forall day: nat | day < 7 :: NamedIn(lines, day)
    ensures |week| == n && forall day | 0 <= day < n :: Said(lines, day, week[day])
  {
    hide AllRead, NamedIn, Said;
    if n == 0 {
      week := [];
    } else {
      var before := BuildWeek(lines, n - 1);
      LastNamed(lines, n - 1);
      var hours :| Said(lines, n - 1, hours);
      week := before + [hours];
    }
  }
}
