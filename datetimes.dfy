/**
 * Naive `datetime` values as the scheduler uses them: the proleptic
 * Gregorian calendar of years 1 to 9999, day arithmetic with
 * `timedelta(days=…)`, `weekday()`, `isoformat()` and the subset of
 * `fromisoformat()` that reads `isoformat()` output back, plus the
 * relative date and 12-hour clock parsing of `JarvisCore._parse_datetime`
 * (jarvis_core.py).
 */
module DateTimes {
  import opened Common
  import opened TextScan

  datatype DateTime = DateTime(year: int, month: int, day: int, hour: int, minute: int, second: int, micro: int)

  /** `datetime.MAXYEAR`. */
  const MaxYear := 9999

  predicate IsLeap(y: int) { y % 4 == 0 && (y % 100 != 0 || y % 400 == 0) }

  function DaysInMonth(y: int, m: int): int
  {
    if m == 2 then (if IsLeap(y) then 29 else 28)
    else if m == 4 || m == 6 || m == 9 || m == 11 then 30
    else 31
  }

  predicate ValidDate(y: int, m: int, d: int)
  {
    1 <= y <= MaxYear && 1 <= m <= 12 && 1 <= d <= DaysInMonth(y, m)
  }

  /** The values the `datetime` constructor accepts. */
  predicate Valid(t: DateTime)
  {
    ValidDate(t.year, t.month, t.day) &&
    0 <= t.hour < 24 && 0 <= t.minute < 60 && 0 <= t.second < 60 && 0 <= t.micro < 1000000
  }

  /** The same time of day. */
  predicate SameClock(a: DateTime, b: DateTime)
  {
    a.hour == b.hour && a.minute == b.minute && a.second == b.second && a.micro == b.micro
  }

  // ------------------------------------------------------------ ordinals

  /** Days in the years before `y`, each 365 or 366 long. */
  function DaysBeforeYear(y: int): int
    requires y >= 1
  {
    if y == 1 then 0 else DaysBeforeYear(y - 1) + (if IsLeap(y - 1) then 366 else 365)
  }

  function DaysBeforeMonth(y: int, m: int): int
    requires 1 <= m <= 12
  {
    [0, 31, 59, 90, 120, 151, 181, 212, 243, 273, 304, 334][m - 1] + (if m > 2 && IsLeap(y) then 1 else 0)
  }

  /** `toordinal()`: day 1 is 0001-01-01. */
  function Ordinal(t: DateTime): int
    requires Valid(t)
  {
    DaysBeforeYear(t.year) + DaysBeforeMonth(t.year, t.month) + t.day
  }

  /** `weekday()`: 0 for Monday up to 6 for Sunday. */
  function Weekday(t: DateTime): int
    requires Valid(t)
  {
    (Ordinal(t) + 6) % 7
  }

  lemma MonthLength(y: int, m: int)
    requires 1 <= m < 12
    ensures DaysBeforeMonth(y, m + 1) == DaysBeforeMonth(y, m) + DaysInMonth(y, m)
  {
  }

  /** `t + timedelta(days=1)`; None where Python raises OverflowError. */
  function NextDay(t: DateTime): (r: Option<DateTime>)
    requires Valid(t)
    ensures r.None? <==> t.year == MaxYear && t.month == 12 && t.day == 31
    ensures r.Some? ==> Valid(r.value) && SameClock(r.value, t) && Ordinal(r.value) == Ordinal(t) + 1
  {
    if t.day < DaysInMonth(t.year, t.month) then Some(t.(day := t.day + 1))
    else if t.month < 12 then
      MonthLength(t.year, t.month);
      Some(t.(month := t.month + 1, day := 1))
    else if t.year < MaxYear then
      Some(t.(year := t.year + 1, month := 1, day := 1))
    else None
  }

  /** `t - timedelta(days=1)`; None where Python raises OverflowError. */
  function PrevDay(t: DateTime): (r: Option<DateTime>)
    requires Valid(t)
    ensures r.None? <==> t.year == 1 && t.month == 1 && t.day == 1
    ensures r.Some? ==> Valid(r.value) && SameClock(r.value, t) && Ordinal(r.value) == Ordinal(t) - 1
  {
    if t.day > 1 then Some(t.(day := t.day - 1))
    else if t.month > 1 then
      MonthLength(t.year, t.month - 1);
      Some(t.(month := t.month - 1, day := DaysInMonth(t.year, t.month - 1)))
    else if t.year > 1 then
      Some(t.(year := t.year - 1, month := 12, day := 31))
    else None
  }

  /** `t + timedelta(days=n)`; None where Python raises OverflowError. */
  function AddDays(t: DateTime, n: nat): (r: Option<DateTime>)
    requires Valid(t)
    ensures r.Some? ==> Valid(r.value) && SameClock(r.value, t) && Ordinal(r.value) == Ordinal(t) + n
    decreases n
  {
    if n == 0 then Some(t)
    else
      match NextDay(t)
      case None => None
      case Some(u) => AddDays(u, n - 1)
  }

  /** Below the last year every shift of a week or less stays in range. */
  lemma {:induction false} AddDaysInRange(t: DateTime, n: nat)
    requires Valid(t) && t.year < MaxYear && n <= 7
    ensures AddDays(t, n).Some?
  {
    if n > 0 {
      var u := NextDay(t).value;
      assert u.year < MaxYear || (u.month == 1 && u.day == 1);
      AddDaysFromNewYear(u, n - 1);
    }
  }

  lemma {:induction false} AddDaysFromNewYear(t: DateTime, n: nat)
    requires Valid(t) && n <= 7
    requires t.year < MaxYear || (t.month == 1 && t.day <= 1)
    ensures AddDays(t, n).Some?
  {
    if n > 0 {
      var u := NextDay(t).value;
      assert u.year < MaxYear || (u.month == 1 && u.day <= 2);
      AddDaysEarlyJanuary(u, n - 1, 2);
    }
  }

  lemma {:induction false} AddDaysEarlyJanuary(t: DateTime, n: nat, k: nat)
    requires Valid(t) && n + k <= 8
    requires t.year < MaxYear || (t.month == 1 && t.day <= k)
    ensures AddDays(t, n).Some?
    decreases n
  {
    if n > 0 {
      var u := NextDay(t).value;
      AddDaysEarlyJanuary(u, n - 1, k + 1);
    }
  }

  // --------------------------------------------------------- isoformat

  function Pow10(w: nat): nat
  {
    if w == 0 then 1 else 10 * Pow10(w - 1)
  }

  /** `%0<w>d` for a value below `10^w`: exactly `w` digits. */
  function Pad(n: nat, w: nat): (r: string)
    ensures |r| == w
    ensures forall i :: 0 <= i < w ==> IsDigit(r[i])
  {
    if w == 0 then "" else Pad(n / 10, w - 1) + [DigitChar(n % 10)]
  }

  lemma {:induction false} PadValue(n: nat, w: nat)
    requires n < Pow10(w)
    ensures DigitsValue(Pad(n, w)) == n
  {
    if w > 0 {
      var r := Pad(n, w);
      assert r[..w - 1] == Pad(n / 10, w - 1);
      PadValue(n / 10, w - 1);
    }
  }

  function DatePart(t: DateTime): string
    requires Valid(t)
  {
    Pad(t.year, 4) + "-" + Pad(t.month, 2) + "-" + Pad(t.day, 2)
  }

  function ClockPart(t: DateTime): string
    requires Valid(t)
  {
    Pad(t.hour, 2) + ":" + Pad(t.minute, 2) + ":" + Pad(t.second, 2)
  }

  /** `isoformat()`: `YYYY-MM-DDTHH:MM:SS`, then `.ffffff` unless the microseconds are zero. */
  function IsoFormat(t: DateTime): (r: string)
    requires Valid(t)
    ensures |r| == (if t.micro == 0 then 19 else 26)
  {
    DatePart(t) + "T" + ClockPart(t) + (if t.micro == 0 then "" else "." + Pad(t.micro, 6))
  }

  /** `strftime('%Y%m%d%H%M%S%f')`: twenty digits. */
  function Stamp(t: DateTime): (r: string)
    requires Valid(t)
    ensures |r| == 20
  {
    Pad(t.year, 4) + Pad(t.month, 2) + Pad(t.day, 2) + Pad(t.hour, 2) + Pad(t.minute, 2) + Pad(t.second, 2) +
    Pad(t.micro, 6)
  }

  // ----------------------------------------------------- fromisoformat

  /** The `w` digits at `i`, if they are all digits. */
  function Field(s: string, i: nat, w: nat): (r: Option<nat>)
    requires i + w <= |s|
  {
    if forall k :: i <= k < i + w ==> IsDigit(s[k]) then Some(DigitsValue(s[i..i + w])) else None
  }

  function Checked(t: DateTime): (r: Option<DateTime>)
    ensures r.Some? ==> Valid(r.value) && r.value == t
  {
    if Valid(t) then Some(t) else None
  }

  /** The lengths of the `fromisoformat` forms read here. */
  const IsoLengths: set<nat> := {10, 13, 16, 19, 23, 26}

  /**
   * `datetime.fromisoformat` on `YYYY-MM-DD`, optionally followed by any
   * one separator character and `HH`, `HH:MM`, `HH:MM:SS`,
   * `HH:MM:SS.fff` or `HH:MM:SS.ffffff`; None where Python raises
   * ValueError. Missing clock fields are zero, and three fraction digits
   * are milliseconds.
   */
  function ParseIso(s: string): (r: Option<DateTime>)
    ensures r.Some? ==> Valid(r.value)
  {
    if |s| !in IsoLengths then None
    else if s[4] != '-' || s[7] != '-' then None
    else
      var y, mo, d := Field(s, 0, 4), Field(s, 5, 2), Field(s, 8, 2);
      if y.None? || mo.None? || d.None? then None
      else if |s| == 10 then Checked(DateTime(y.value, mo.value, d.value, 0, 0, 0, 0))
      else
        match ClockFields(s)
        case None => None
        case Some(c) => Checked(DateTime(y.value, mo.value, d.value, c.0, c.1, c.2, c.3))
  }

  /** Hour, minute, second and microsecond of a time part starting at index 11. */
  function ClockFields(s: string): (r: Option<(int, int, int, int)>)
    requires |s| in IsoLengths && |s| > 10
  {
    var h := Field(s, 11, 2);
    var mi := if |s| < 16 then Some(0) else if s[13] != ':' then None else Field(s, 14, 2);
    var se := if |s| < 19 then Some(0) else if s[16] != ':' then None else Field(s, 17, 2);
    var us :=
      if |s| < 23 then Some(0)
      else if s[19] != '.' then None
      else if |s| == 23 then (match Field(s, 20, 3) case None => None case Some(ms) => Some(ms * 1000))
      else Field(s, 20, 6);
    if h.None? || mi.None? || se.None? || us.None? then None
    else Some((h.value, mi.value, se.value, us.value))
  }

  lemma FieldOfPad(s: string, i: nat, n: nat, w: nat)
    requires n < Pow10(w) && i + w <= |s| && s[i..i + w] == Pad(n, w)
    ensures Field(s, i, w) == Some(n)
  {
    forall k | i <= k < i + w ensures IsDigit(s[k]) {
      assert s[k] == s[i..i + w][k - i];
    }
    PadValue(n, w);
  }

  lemma DateFields(s: string, t: DateTime)
    requires Valid(t) && |s| >= 10 && s[..10] == DatePart(t)
    ensures s[4] == '-' && s[7] == '-'
    ensures Field(s, 0, 4) == Some(t.year) && Field(s, 5, 2) == Some(t.month) && Field(s, 8, 2) == Some(t.day)
  {
    var dp := DatePart(t);
    assert dp[0..4] == Pad(t.year, 4) && dp[5..7] == Pad(t.month, 2) && dp[8..10] == Pad(t.day, 2);
    assert s[0..4] == dp[0..4] && s[5..7] == dp[5..7] && s[8..10] == dp[8..10];
    FieldOfPad(s, 0, t.year, 4);
    FieldOfPad(s, 5, t.month, 2);
    FieldOfPad(s, 8, t.day, 2);
  }

  lemma ClockFieldsOf(s: string, t: DateTime)
    requires Valid(t) && |s| >= 19 && s[11..19] == ClockPart(t)
    ensures s[13] == ':' && s[16] == ':'
    ensures Field(s, 11, 2) == Some(t.hour) && Field(s, 14, 2) == Some(t.minute) && Field(s, 17, 2) == Some(t.second)
  {
    var cp := ClockPart(t);
    assert cp[0..2] == Pad(t.hour, 2) && cp[3..5] == Pad(t.minute, 2) && cp[6..8] == Pad(t.second, 2);
    assert s[11..13] == cp[0..2] && s[14..16] == cp[3..5] && s[17..19] == cp[6..8];
    FieldOfPad(s, 11, t.hour, 2);
    FieldOfPad(s, 14, t.minute, 2);
    FieldOfPad(s, 17, t.second, 2);
  }

  /** `fromisoformat(isoformat(t)) == t`. */
  lemma ParseIsoFormat(t: DateTime)
    requires Valid(t)
    ensures ParseIso(IsoFormat(t)) == Some(t)
  {
    var s := IsoFormat(t);
    assert s[..10] == DatePart(t);
    DateFields(s, t);
    IsoClock(s, t);
  }

  lemma IsoClock(s: string, t: DateTime)
    requires Valid(t) && s == IsoFormat(t)
    ensures ClockFields(s) == Some((t.hour, t.minute, t.second, t.micro))
  {
    assert s[11..19] == ClockPart(t);
    ClockFieldsOf(s, t);
    if t.micro != 0 {
      assert s[19] == '.' && s[20..26] == Pad(t.micro, 6);
      FieldOfPad(s, 20, t.micro, 6);
    }
  }

  /** The minute form `YYYY-MM-DDTHH:MM` reads back with zero seconds. */
  lemma MinuteForm(t: DateTime)
    requires Valid(t) && t.second == 0 && t.micro == 0
    ensures ParseIso(DatePart(t) + "T" + Pad(t.hour, 2) + ":" + Pad(t.minute, 2)) == Some(t)
  {
    var s := DatePart(t) + "T" + Pad(t.hour, 2) + ":" + Pad(t.minute, 2);
    assert |s| == 16;
    assert s[..10] == DatePart(t);
    DateFields(s, t);
    assert s[11..13] == Pad(t.hour, 2) && s[14..16] == Pad(t.minute, 2);
    FieldOfPad(s, 11, t.hour, 2);
    FieldOfPad(s, 14, t.minute, 2);
    assert ClockFields(s) == Some((t.hour, t.minute, 0, 0));
  }

  // ------------------------------------------------- `_parse_datetime`

  const WeekdayNames: seq<string> := ["monday", "tuesday", "wednesday", "thursday", "friday", "saturday", "sunday"]

  function IndexOfName(names: seq<string>, s: string): (r: Option<nat>)
    ensures r.Some? ==> r.value < |names| && names[r.value] == s
    ensures r.None? ==> s !in names
  {
    if |names| == 0 then None
    else if names[0] == s then Some(0)
    else match IndexOfName(names[1..], s)
      case None => None
      case Some(i) => Some(i + 1)
  }

  /** Days from `now` to the next `target` weekday: 1 to 7, never 0. */
  function DaysAhead(target: int, current: int): (r: int)
    requires 0 <= target < 7 && 0 <= current < 7
    ensures 1 <= r <= 7 && (current + r) % 7 == target
  {
    var ahead := target - current;
    if ahead <= 0 then ahead + 7 else ahead
  }

  /** `now` moved ahead to the next weekday numbered `target`. */
  function NextWeekday(now: DateTime, target: int): (r: Option<DateTime>)
    requires Valid(now) && 0 <= target < 7
    ensures r.Some? ==> Valid(r.value)
  {
    AddDays(now, DaysAhead(target, Weekday(now)))
  }

  /**
   * The date part of `_parse_datetime`: today, tomorrow, yesterday, the
   * next named weekday, an ISO date, or `now` for anything else; None
   * where the day arithmetic overflows.
   */
  function ResolveDate(dateStr: string, now: DateTime): (r: Option<DateTime>)
    requires Valid(now)
    ensures r.Some? ==> Valid(r.value)
  {
    var d := LowerStr(dateStr);
    if d == "today" then Some(now)
    else if d == "tomorrow" then NextDay(now)
    else if d == "yesterday" then PrevDay(now)
    else if d in WeekdayNames then NextWeekday(now, IndexOfName(WeekdayNames, d).value)
    else
      match ParseIso(dateStr)
      case Some(t) => Some(t)
      case None => Some(now)
  }

  /**
   * `int(s)` on ASCII text: surrounding whitespace, an optional sign, and
   * digits with single underscores between them.
   */
  function ParseInt(s: string): (r: Option<int>)
  {
    ParseSigned(Strip(s))
  }

  /** An optional sign, then digit groups. */
  function ParseSigned(t: string): (r: Option<int>)
  {
    if |t| > 0 && (t[0] == '+' || t[0] == '-') then
      match ParseDigits(t[1..])
      case None => None
      case Some(v) =>
        var x: int := v;
        Some(if t[0] == '-' then -x else x)
    else ParseDigits(t)
  }

  predicate DigitGroups(s: string)
  {
    |s| > 0 && IsDigit(s[0]) && IsDigit(s[|s| - 1]) &&
    (forall k :: 0 <= k < |s| ==> IsDigit(s[k]) || s[k] == '_') &&
    (forall k :: 0 <= k < |s| - 1 && s[k] == '_' ==> s[k + 1] != '_')
  }

  function DropUnderscores(s: string): (r: string)
    requires forall k :: 0 <= k < |s| ==> IsDigit(s[k]) || s[k] == '_'
    ensures forall k :: 0 <= k < |r| ==> IsDigit(r[k])
  {
    if |s| == 0 then ""
    else (if s[0] == '_' then "" else [s[0]]) + DropUnderscores(s[1..])
  }

  function ParseDigits(s: string): (r: Option<nat>)
  {
    if DigitGroups(s) then Some(DigitsValue(DropUnderscores(s))) else None
  }

  /** `s.split(sep)`: the pieces between separators, empty ones included. */
  function SplitOn(s: string, sep: char): (r: seq<string>)
    ensures |r| >= 1
    ensures sep !in s ==> r == [s]
  {
    if |s| == 0 then [""]
    else if s[0] == sep then [""] + SplitOn(s[1..], sep)
    else
      var rest := SplitOn(s[1..], sep);
      assert sep !in s ==> sep !in s[1..] && [s[0]] + s[1..] == s;
      [[s[0]] + rest[0]] + rest[1..]
  }

  /** `H:M` or `H`, each part read by `int`. */
  function HourMinute(u: string): (r: Option<(int, int)>)
  {
    if ':' in u then
      var parts := SplitOn(u, ':');
      if |parts| != 2 then None
      else
        var h, m := ParseInt(parts[0]), ParseInt(parts[1]);
        if h.None? || m.None? then None else Some((h.value, m.value))
    else
      match ParseInt(u)
      case None => None
      case Some(h) => Some((h, 0))
  }

  /** The time string lower-cased, with its spaces removed. */
  function Compact(timeStr: string): string
  {
    ReplaceAll(LowerStr(timeStr), " ", "")
  }

  /** Every `pm`, then every `am`, removed. */
  function DropMeridiem(t: string): string
  {
    ReplaceAll(ReplaceAll(t, "pm", ""), "am", "")
  }

  /** The 24-hour hour of a 12-hour reading: 12am is 0, 12pm stays 12, other pm hours move up by 12. */
  function TwentyFourHour(h: int, isPm: bool): int
  {
    if isPm && h != 12 then h + 12 else if !isPm && h == 12 then 0 else h
  }

  /**
   * The hour and minute `_parse_datetime` reads from a time string, before
   * the range check: spaces removed, and with `am`/`pm` the hour 12 maps to
   * 0 in the morning and the other afternoon hours move up by 12.
   */
  function ParseClock(timeStr: string): (r: Option<(int, int)>)
  {
    var t := Compact(timeStr);
    if Contains(t, "pm") || Contains(t, "am") then
      match HourMinute(DropMeridiem(t))
      case None => None
      case Some(hm) => Some((TwentyFourHour(hm.0, Contains(t, "pm")), hm.1))
    else HourMinute(t)
  }

  /**
   * The time part of `_parse_datetime`: a readable, in-range time replaces
   * hour and minute and zeroes seconds and microseconds; anything else
   * leaves the date as it was.
   */
  function ApplyTime(date: DateTime, timeStr: Option<string>): (r: DateTime)
    requires Valid(date)
    ensures Valid(r)
    ensures r == date || (r.year == date.year && r.month == date.month && r.day == date.day &&
                          r.second == 0 && r.micro == 0 &&
                          timeStr.Some? && ParseClock(timeStr.value) == Some((r.hour, r.minute)))
    ensures timeStr.None? || timeStr.value == "" || ParseClock(timeStr.value).None? ==> r == date
    ensures timeStr.Some? && timeStr.value != "" && ParseClock(timeStr.value).Some? ==>
      var (h, m) := ParseClock(timeStr.value).value;
      (0 <= h <= 23 && 0 <= m <= 59 ==> r == date.(hour := h, minute := m, second := 0, micro := 0)) &&
      (!(0 <= h <= 23 && 0 <= m <= 59) ==> r == date)
  {
    if timeStr.None? || timeStr.value == "" then date
    else
      match ParseClock(timeStr.value)
      case None => date
      case Some(hm) =>
        if 0 <= hm.0 <= 23 && 0 <= hm.1 <= 59 then date.(hour := hm.0, minute := hm.1, second := 0, micro := 0)
        else date
  }

  /** `_parse_datetime`: the ISO text of the resolved date and time; None where Python raises. */
  function ParseDateTime(dateStr: string, timeStr: Option<string>, now: DateTime): (r: Option<string>)
    requires Valid(now)
    ensures r.Some? <==> ResolveDate(dateStr, now).Some?
    ensures r.Some? ==> ParseIso(r.value) == Some(ApplyTime(ResolveDate(dateStr, now).value, timeStr))
  {
    match ResolveDate(dateStr, now)
    case None => None
    case Some(d) =>
      var t := ApplyTime(d, timeStr);
      ParseIsoFormat(t);
      Some(IsoFormat(t))
  }

  // --------------------------------------------------------- properties

  lemma WeekdayName(k: nat)
    requires k < 7
    ensures var d := WeekdayNames[k];
      d != "today" && d != "tomorrow" && d != "yesterday" && IndexOfName(WeekdayNames, d) == Some(k)
  {
    if k == 0 { } else if k == 1 { } else if k == 2 { } else if k == 3 { }
    else if k == 4 { } else if k == 5 { } else { }
  }

  lemma NextWeekdayLands(now: DateTime, k: nat)
    requires Valid(now) && k < 7
    ensures var r := NextWeekday(now, k);
      (now.year < MaxYear ==> r.Some?) &&
      (r.Some? ==> 1 <= Ordinal(r.value) - Ordinal(now) <= 7 && Weekday(r.value) == k && SameClock(r.value, now))
  {
    var ahead := DaysAhead(k, Weekday(now));
    if now.year < MaxYear {
      AddDaysInRange(now, ahead);
    }
    if AddDays(now, ahead).Some? {
      AddDaysWeekday(now, ahead);
    }
  }

  /** Moving `n` days moves the weekday `n` places round the week. */
  lemma AddDaysWeekday(t: DateTime, n: nat)
    requires Valid(t) && AddDays(t, n).Some?
    ensures Weekday(AddDays(t, n).value) == (Weekday(t) + n) % 7
  {
    var u := AddDays(t, n).value;
    var o, o2 := Ordinal(t), Ordinal(u);
    ShiftWeekday(o, (o + 6) % 7, n, o2, ((o + 6) % 7 + n) % 7);
  }

  lemma ShiftWeekday(o: int, w: int, n: int, o2: int, k: int)
    requires o2 == o + n && w == (o + 6) % 7 && (w + n) % 7 == k
    ensures (o2 + 6) % 7 == k
  {
    var q := (o + 6) / 7;
    assert o + 6 == 7 * q + (o + 6) % 7;
    assert o2 + 6 == 7 * q + ((o + 6) % 7 + n);
  }

  /** A weekday name moves 1 to 7 days ahead, never 0, onto that weekday, at the same time of day. */
  lemma WeekdayAhead(dateStr: string, now: DateTime, k: nat)
    requires Valid(now) && k < 7 && LowerStr(dateStr) == WeekdayNames[k]
    ensures var r := ResolveDate(dateStr, now);
      (now.year < MaxYear ==> r.Some?) &&
      (r.Some? ==> 1 <= Ordinal(r.value) - Ordinal(now) <= 7 && Weekday(r.value) == k && SameClock(r.value, now))
  {
    WeekdayName(k);
    assert ResolveDate(dateStr, now) == NextWeekday(now, k);
    NextWeekdayLands(now, k);
  }

  /** today, tomorrow and yesterday move 0, +1 and -1 days and keep the time of day. */
  lemma RelativeDays(dateStr: string, now: DateTime)
    requires Valid(now)
    ensures var r := ResolveDate(dateStr, now); var d := LowerStr(dateStr);
      (d == "today" ==> r == Some(now)) &&
      (d == "tomorrow" && r.Some? ==> Ordinal(r.value) == Ordinal(now) + 1 && SameClock(r.value, now)) &&
      (d == "yesterday" && r.Some? ==> Ordinal(r.value) == Ordinal(now) - 1 && SameClock(r.value, now))
  {
  }

  /** Text that is neither a relative day nor a weekday but reads as an ISO date resolves to that date. */
  lemma IsoDateResolves(dateStr: string, now: DateTime)
    requires Valid(now)
    requires LowerStr(dateStr) !in ["today", "tomorrow", "yesterday"] + WeekdayNames
    requires ParseIso(dateStr).Some?
    ensures ResolveDate(dateStr, now) == Some(ParseIso(dateStr).value)
  {
  }

  /** Text that is neither a relative day, a weekday nor an ISO date falls back to `now`. */
  lemma UnknownDateIsNow(dateStr: string, now: DateTime)
    requires Valid(now)
    requires LowerStr(dateStr) !in ["today", "tomorrow", "yesterday"] + WeekdayNames
    requires ParseIso(dateStr).None?
    ensures ResolveDate(dateStr, now) == Some(now)
  {
  }

  lemma {:induction false} ReplaceAllAbsent(s: string, pat: string, rep: string)
    requires |pat| > 0 && pat[0] !in s
    ensures ReplaceAll(s, pat, rep) == s
    decreases |s|
  {
    if |s| >= |pat| {
      assert s[..|pat|][0] == s[0];
      ReplaceAllAbsent(s[1..], pat, rep);
      assert [s[0]] + s[1..] == s;
    }
  }

  lemma {:induction false} ReplaceAllSuffix(digits: string, pat: string)
    requires |pat| > 0 && pat[0] !in digits
    ensures ReplaceAll(digits + pat, pat, "") == digits
    decreases |digits|
  {
    var s := digits + pat;
    if |digits| == 0 {
      assert s[..|pat|] == pat && s[|pat|..] == "";
    } else {
      assert s[..|pat|][0] == digits[0];
      assert s[1..] == digits[1..] + pat;
      ReplaceAllSuffix(digits[1..], pat);
      assert [digits[0]] + digits[1..] == digits;
    }
  }

  lemma {:induction false} NoLetterInDigits(s: string, c: char)
    requires forall k :: 0 <= k < |s| ==> IsDigit(s[k])
    requires !IsDigit(c)
    ensures c !in s
  {
  }

  lemma {:induction false} ContainsOnlyAtEnd(digits: string, pat: string, other: string)
    requires forall k :: 0 <= k < |digits| ==> IsDigit(digits[k])
    requires |pat| == 2 && |other| == 2 && pat[1] == 'm' && other[1] == 'm' && other[0] != pat[0]
    requires !IsDigit(pat[0]) && !IsDigit(other[0])
    ensures Contains(digits + pat, pat)
    ensures !Contains(digits + pat, other)
    decreases |digits|
  {
    var s := digits + pat;
    assert s[|digits|..|digits| + 2] == pat;
    ContainsAt(s, pat, |digits|);
    if |digits| == 0 {
      assert !StartsWith(s, other);
      var m := s[1..];
      assert m == "m" && !StartsWith(m, other);
      assert m[1..] == "" && !Contains(m[1..], other);
    } else {
      assert s[0] == digits[0] && !StartsWith(s, other);
      assert s[1..] == digits[1..] + pat;
      ContainsOnlyAtEnd(digits[1..], pat, other);
    }
  }

  lemma LowerDigits(s: string)
    requires forall k :: 0 <= k < |s| ==> IsDigit(s[k])
    ensures LowerStr(s) == s
  {
  }

  lemma {:induction false} DigitsNoSpace(s: string)
    requires forall k :: 0 <= k < |s| ==> IsDigit(s[k])
    ensures Strip(s) == s
  {
    if |s| > 0 {
      assert s[0] !in Whitespace && s[|s| - 1] !in Whitespace;
    }
  }

  lemma {:induction false} DropUnderscoresDigits(s: string)
    requires forall k :: 0 <= k < |s| ==> IsDigit(s[k])
    ensures DropUnderscores(s) == s
  {
    if |s| > 0 {
      DropUnderscoresDigits(s[1..]);
      assert [s[0]] + s[1..] == s;
    }
  }

  lemma DigitsAreGroups(s: string)
    requires |s| > 0 && forall k :: 0 <= k < |s| ==> IsDigit(s[k])
    ensures ParseDigits(s) == Some(DigitsValue(s))
  {
    DropUnderscoresDigits(s);
    assert DigitGroups(s);
  }

  lemma SignedDigits(s: string)
    requires |s| > 0 && forall k :: 0 <= k < |s| ==> IsDigit(s[k])
    ensures ParseSigned(s) == Some(DigitsValue(s))
  {
    assert !(s[0] == '+' || s[0] == '-');
    DigitsAreGroups(s);
  }

  lemma ParseIntDigits(s: string)
    requires |s| > 0 && forall k :: 0 <= k < |s| ==> IsDigit(s[k])
    ensures ParseInt(s) == Some(DigitsValue(s))
  {
    var v := DigitsValue(s);
    DigitsNoSpace(s);
    ParseIntStripped(s);
    SignedDigits(s);
    assert ParseSigned(s) == Some(v);
  }

  lemma ParseIntStripped(s: string)
    requires Strip(s) == s
    ensures ParseInt(s) == ParseSigned(s)
  {
  }

  /** `int(str(n)) == n`. */
  lemma ParseIntOfNat(n: nat)
    ensures ParseInt(NatToString(n)) == Some(n)
  {
    ParseIntDigits(NatToString(n));
    DigitsValueOfNat(n);
  }

  /** "<h>am" and "<h>pm": 12am is hour 0, 12pm is hour 12, and the other afternoon hours move up by 12. */
  lemma TwelveHourClock(h: nat)
    ensures ParseClock(NatToString(h) + "pm") == Some((if h == 12 then 12 else h + 12, 0))
    ensures ParseClock(NatToString(h) + "am") == Some((if h == 12 then 0 else h, 0))
  {
    var digits := NatToString(h);
    ParseIntOfNat(h);
    PmClock(digits, h);
    AmClock(digits, h);
  }

  lemma NoSpaces(s: string, digits: string, suffix: string)
    requires s == digits + suffix
    requires forall k :: 0 <= k < |digits| ==> IsDigit(digits[k])
    requires forall k :: 0 <= k < |suffix| ==> suffix[k] in {'a', 'p', 'm'}
    ensures ' ' !in s && 'p' !in digits && 'a' !in digits && ':' !in digits && ' ' !in digits
  {
    forall k | 0 <= k < |s| ensures s[k] != ' ' {
      if k < |digits| { assert s[k] == digits[k]; } else { assert s[k] == suffix[k - |digits|]; }
    }
  }

  lemma CompactDigitsSuffix(digits: string, suffix: string)
    requires forall k :: 0 <= k < |digits| ==> IsDigit(digits[k])
    requires suffix in {"am", "pm"}
    ensures Compact(digits + suffix) == digits + suffix
  {
    var s := digits + suffix;
    NoSpaces(s, digits, suffix);
    LowerStrAppend(digits, suffix);
    LowerDigits(digits);
    assert LowerStr(s) == s;
    ReplaceAllAbsent(s, " ", "");
  }

  lemma DropPm(digits: string)
    requires forall k :: 0 <= k < |digits| ==> IsDigit(digits[k])
    ensures DropMeridiem(digits + "pm") == digits
  {
    NoSpaces(digits + "pm", digits, "pm");
    ReplaceAllSuffix(digits, "pm");
    ReplaceAllAbsent(digits, "am", "");
  }

  lemma DropAm(digits: string)
    requires forall k :: 0 <= k < |digits| ==> IsDigit(digits[k])
    ensures DropMeridiem(digits + "am") == digits
  {
    var s := digits + "am";
    NoSpaces(s, digits, "am");
    assert 'p' !in s by {
      forall k | 0 <= k < |s| ensures s[k] != 'p' {
        if k < |digits| { assert s[k] == digits[k]; } else { assert s[k] == "am"[k - |digits|]; }
      }
    }
    ReplaceAllAbsent(s, "pm", "");
    ReplaceAllSuffix(digits, "am");
  }

  lemma HourOnly(digits: string, h: int)
    requires forall k :: 0 <= k < |digits| ==> IsDigit(digits[k])
    requires ParseInt(digits) == Some(h)
    ensures HourMinute(digits) == Some((h, 0))
  {
    NoLetterInDigits(digits, ':');
  }

  lemma PmClock(digits: string, h: int)
    requires forall k :: 0 <= k < |digits| ==> IsDigit(digits[k])
    requires ParseInt(digits) == Some(h)
    ensures ParseClock(digits + "pm") == Some((TwentyFourHour(h, true), 0))
  {
    CompactDigitsSuffix(digits, "pm");
    ContainsOnlyAtEnd(digits, "pm", "am");
    DropPm(digits);
    HourOnly(digits, h);
  }

  lemma AmClock(digits: string, h: int)
    requires forall k :: 0 <= k < |digits| ==> IsDigit(digits[k])
    requires ParseInt(digits) == Some(h)
    ensures ParseClock(digits + "am") == Some((TwentyFourHour(h, false), 0))
  {
    CompactDigitsSuffix(digits, "am");
    ContainsOnlyAtEnd(digits, "am", "pm");
    DropAm(digits);
    HourOnly(digits, h);
  }
}
