/** Python's naive `datetime` at minute precision, with `strptime` for the two
    formats the assistant uses (`"%Y-%m-%d"` and `"%Y-%m-%d %H:%M"`) and
    `strftime` for the same formats.

    CPython's `strptime` turns each directive into a regular expression, matches
    it at the start of the text, raises ValueError when text is left over
    ("unconverted data remains"), and finally builds the `datetime`, raising
    ValueError for a day the month does not have. The directives are
      %Y  `\d\d\d\d`
      %m  `1[0-2]|0[1-9]|[1-9]`
      %d  `3[01]|[12]\d|0[1-9]|[1-9]| [1-9]`
      %H  `2[0-3]|[0-1]\d|\d`
      %M  `[0-5]\d|\d`
    and a space in the format matches one or more whitespace characters.
    In each of these the first alternative that matches is the only one that
    can be followed by what the format puts next (a `-`, whitespace or `:`),
    so the matchers below take the first matching alternative and never
    backtrack. */
module DateTimes {
  import opened Common
  import opened Text

  predicate IsLeapYear(y: int) {
    y % 4 == 0 && (y % 100 != 0 || y % 400 == 0)
  }

  function DaysInMonth(y: int, m: int): int
    requires 1 <= m <= 12
  {
    if m == 2 then (if IsLeapYear(y) then 29 else 28)
    else if m == 4 || m == 6 || m == 9 || m == 11 then 30
    else 31
  }

  datatype Moment = Moment(year: int, month: int, day: int, hour: int, minute: int)

  /** What the `datetime` constructor accepts (MINYEAR is 1, MAXYEAR 9999). */
  predicate ValidMoment(t: Moment) {
    && 1 <= t.year <= 9999
    && 1 <= t.month <= 12
    && 1 <= t.day <= DaysInMonth(t.year, t.month)
    && 0 <= t.hour <= 23
    && 0 <= t.minute <= 59
  }

  /** A naive `datetime` whose seconds are zero. */
  type DateTime = t: Moment | ValidMoment(t) witness Moment(1, 1, 1, 0, 0)

  /** The same day at 00:00, which is what `strptime(s, "%Y-%m-%d")` returns. */
  function Midnight(t: DateTime): DateTime {
    Moment(t.year, t.month, t.day, 0, 0)
  }

  /** A matched directive: its numeric value and the index just after it. */
  datatype Token = Token(value: int, end: nat)

  predicate CharIn(s: string, p: int, lo: char, hi: char) {
    0 <= p < |s| && lo <= s[p] <= hi
  }

  predicate DigitAt(s: string, p: int) {
    CharIn(s, p, '0', '9')
  }

  function Val(s: string, p: int): nat
    requires DigitAt(s, p)
  {
    DigitValue(s[p])
  }

  /** `%Y`: exactly four digits. */
  function MatchYear(s: string, p: nat): Option<Token> {
    if DigitAt(s, p) && DigitAt(s, p + 1) && DigitAt(s, p + 2) && DigitAt(s, p + 3) then
      Some(Token(1000 * Val(s, p) + 100 * Val(s, p + 1) + 10 * Val(s, p + 2) + Val(s, p + 3), p + 4))
    else None
  }

  /** `%m`: `1[0-2]|0[1-9]|[1-9]`. */
  function MatchMonth(s: string, p: nat): Option<Token> {
    if CharIn(s, p, '1', '1') && CharIn(s, p + 1, '0', '2') then Some(Token(10 + Val(s, p + 1), p + 2))
    else if CharIn(s, p, '0', '0') && CharIn(s, p + 1, '1', '9') then Some(Token(Val(s, p + 1), p + 2))
    else if CharIn(s, p, '1', '9') then Some(Token(Val(s, p), p + 1))
    else None
  }

  /** `%d`: `3[01]|[12]\d|0[1-9]|[1-9]| [1-9]`. */
  function MatchDay(s: string, p: nat): Option<Token> {
    if CharIn(s, p, '3', '3') && CharIn(s, p + 1, '0', '1') then Some(Token(30 + Val(s, p + 1), p + 2))
    else if CharIn(s, p, '1', '2') && DigitAt(s, p + 1) then Some(Token(10 * Val(s, p) + Val(s, p + 1), p + 2))
    else if CharIn(s, p, '0', '0') && CharIn(s, p + 1, '1', '9') then Some(Token(Val(s, p + 1), p + 2))
    else if CharIn(s, p, '1', '9') then Some(Token(Val(s, p), p + 1))
    else if CharIn(s, p, ' ', ' ') && CharIn(s, p + 1, '1', '9') then Some(Token(Val(s, p + 1), p + 2))
    else None
  }

  /** `%H`: `2[0-3]|[0-1]\d|\d`. */
  function MatchHour(s: string, p: nat): Option<Token> {
    if CharIn(s, p, '2', '2') && CharIn(s, p + 1, '0', '3') then Some(Token(20 + Val(s, p + 1), p + 2))
    else if CharIn(s, p, '0', '1') && DigitAt(s, p + 1) then Some(Token(10 * Val(s, p) + Val(s, p + 1), p + 2))
    else if DigitAt(s, p) then Some(Token(Val(s, p), p + 1))
    else None
  }

  /** `%M`: `[0-5]\d|\d`. */
  function MatchMinute(s: string, p: nat): Option<Token> {
    if CharIn(s, p, '0', '5') && DigitAt(s, p + 1) then Some(Token(10 * Val(s, p) + Val(s, p + 1), p + 2))
    else if DigitAt(s, p) then Some(Token(Val(s, p), p + 1))
    else None
  }

  /** The index just after the run of whitespace that starts at `p`. */
  function SkipSpaces(s: string, p: nat): (q: nat)
    requires p <= |s|
    ensures p <= q <= |s|
    decreases |s| - p
  {
    if p < |s| && IsSpace(s[p]) then SkipSpaces(s, p + 1) else p
  }

  datatype DateToken = DateToken(year: int, month: int, day: int, end: nat)

  /** The `%Y-%m-%d` part of a format, matched at the start of `s`. */
  function MatchDateFields(s: string): Option<DateToken> {
    match MatchYear(s, 0)
    case None => None
    case Some(y) =>
      if !CharIn(s, y.end, '-', '-') then None
      else match MatchMonth(s, y.end + 1)
        case None => None
        case Some(m) =>
          if !CharIn(s, m.end, '-', '-') then None
          else match MatchDay(s, m.end + 1)
            case None => None
            case Some(d) => Some(DateToken(y.value, m.value, d.value, d.end))
  }

  /** `datetime.strptime(s, "%Y-%m-%d")`: the day at midnight, or None where
      Python raises ValueError. */
  function ParseDate(s: string): Option<DateTime> {
    match MatchDateFields(s)
    case None => None
    case Some(t) =>
      var m := Moment(t.year, t.month, t.day, 0, 0);
      if t.end == |s| && ValidMoment(m) then Some(m) else None
  }

  /** `datetime.strptime(s, "%H:%M")` reduced to its hour and minute. */
  function ParseClock(s: string): Option<(int, int)> {
    match MatchHour(s, 0)
    case None => None
    case Some(h) =>
      if !CharIn(s, h.end, ':', ':') then None
      else match MatchMinute(s, h.end + 1)
        case None => None
        case Some(mi) => if mi.end == |s| then Some((h.value, mi.value)) else None
  }

  /** `datetime.strptime(s, "%Y-%m-%d %H:%M")`. */
  function ParseDateTime(s: string): Option<DateTime> {
    match MatchDateFields(s)
    case None => None
    case Some(t) =>
      if !(t.end < |s| && IsSpace(s[t.end])) then None
      else
        var p := SkipSpaces(s, t.end);
        match MatchHour(s, p)
        case None => None
        case Some(h) =>
          if !CharIn(s, h.end, ':', ':') then None
          else match MatchMinute(s, h.end + 1)
            case None => None
            case Some(mi) =>
              var m := Moment(t.year, t.month, t.day, h.value, mi.value);
              if mi.end == |s| && ValidMoment(m) then Some(m) else None
  }

  /** `t.strftime("%Y-%m-%d")`. */
  function FormatDate(t: DateTime): string {
    Pad4(t.year) + "-" + Pad2(t.month) + "-" + Pad2(t.day)
  }

  /** `t.strftime("%H:%M")`. */
  function FormatClock(t: DateTime): string {
    Pad2(t.hour) + ":" + Pad2(t.minute)
  }

  /** `t.strftime("%Y-%m-%d %H:%M")`. */
  function FormatDateTime(t: DateTime): string {
    FormatDate(t) + " " + FormatClock(t)
  }

  /** The date fields of a formatted date are read back, ending at index 10. */
  lemma MatchFormattedDate(t: DateTime, s: string)
    requires |s| >= 10 && s[..10] == FormatDate(t)
    ensures MatchDateFields(s) == Some(DateToken(t.year, t.month, t.day, 10))
  {
    var f := FormatDate(t);
    assert forall i :: 0 <= i < 10 ==> s[i] == f[i];
    assert s[4] == '-' && s[7] == '-';
    assert MatchYear(s, 0) == Some(Token(t.year, 4));
    assert MatchMonth(s, 5) == Some(Token(t.month, 7));
    assert MatchDay(s, 8) == Some(Token(t.day, 10));
  }

  /** strptime reads back what strftime writes: `"%Y-%m-%d"`. */
  lemma ParseFormattedDate(t: DateTime)
    ensures ParseDate(FormatDate(t)) == Some(Midnight(t))
  {
    var s := FormatDate(t);
    assert s[..10] == s;
    MatchFormattedDate(t, s);
  }

  /** strptime reads back what strftime writes: `"%H:%M"`. */
  lemma ParseFormattedClock(t: DateTime)
    ensures ParseClock(FormatClock(t)) == Some((t.hour, t.minute))
  {
    var s := FormatClock(t);
    assert s[2] == ':';
    assert MatchHour(s, 0) == Some(Token(t.hour, 2));
    assert MatchMinute(s, 3) == Some(Token(t.minute, 5));
  }

  /** Text after the date that starts with a space does not change how the
      date fields are matched. */
  lemma MatchDateFieldsPrefix(date: string, rest: string)
    requires ParseDate(date).Some? && rest != [] && rest[0] == ' '
    ensures MatchDateFields(date + rest) == MatchDateFields(date)
  {
    var y := MatchYear(date, 0).value;
    MatchYearSpaced(date, rest, 0);
    CharInSpaced(date, rest, y.end, '-', '-');
    var mo := MatchMonth(date, y.end + 1).value;
    MatchMonthSpaced(date, rest, y.end + 1);
    CharInSpaced(date, rest, mo.end, '-', '-');
    MatchDaySpaced(date, rest, mo.end + 1);
  }

  /** Up to the end of `date`, a character test that rejects a space reads
      `date + rest` as it reads `date` when `rest` starts with a space. */
  lemma CharInSpaced(date: string, rest: string, q: nat, lo: char, hi: char)
    requires rest != [] && rest[0] == ' ' && q <= |date|
    requires q == |date| ==> !(lo <= ' ' <= hi)
    ensures CharIn(date + rest, q, lo, hi) == CharIn(date, q, lo, hi)
    ensures CharIn(date, q, lo, hi) ==> (date + rest)[q] == date[q]
  {
    if q == |date| {
      assert (date + rest)[q] == rest[0];
    } else {
      assert (date + rest)[q] == date[q];
    }
  }

  lemma MatchYearSpaced(date: string, rest: string, p: nat)
    requires rest != [] && rest[0] == ' ' && MatchYear(date, p).Some?
    ensures MatchYear(date + rest, p) == MatchYear(date, p)
  {
    CharInSpaced(date, rest, p, '0', '9');
    CharInSpaced(date, rest, p + 1, '0', '9');
    CharInSpaced(date, rest, p + 2, '0', '9');
    CharInSpaced(date, rest, p + 3, '0', '9');
  }

  lemma MatchMonthSpaced(date: string, rest: string, p: nat)
    requires rest != [] && rest[0] == ' ' && p < |date|
    ensures MatchMonth(date + rest, p) == MatchMonth(date, p)
  {
    CharInSpaced(date, rest, p, '1', '1');
    CharInSpaced(date, rest, p + 1, '0', '2');
    CharInSpaced(date, rest, p, '0', '0');
    CharInSpaced(date, rest, p + 1, '1', '9');
    CharInSpaced(date, rest, p, '1', '9');
  }

  lemma MatchDaySpaced(date: string, rest: string, p: nat)
    requires rest != [] && rest[0] == ' ' && p < |date|
    ensures MatchDay(date + rest, p) == MatchDay(date, p)
  {
    CharInSpaced(date, rest, p, '3', '3');
    CharInSpaced(date, rest, p + 1, '0', '1');
    CharInSpaced(date, rest, p, '1', '2');
    CharInSpaced(date, rest, p + 1, '0', '9');
    CharInSpaced(date, rest, p, '0', '0');
    CharInSpaced(date, rest, p + 1, '1', '9');
    CharInSpaced(date, rest, p, '1', '9');
    CharInSpaced(date, rest, p, ' ', ' ');
  }

  /** A directive matched in `c` at `q` matches the same way in `pre + c`. */
  lemma CharInShift(pre: string, c: string, q: nat, lo: char, hi: char)
    ensures CharIn(pre + c, |pre| + q, lo, hi) == CharIn(c, q, lo, hi)
    ensures CharIn(c, q, lo, hi) ==> (pre + c)[|pre| + q] == c[q]
  {
  }

  lemma MatchHourShift(pre: string, c: string, q: nat)
    ensures MatchHour(pre + c, |pre| + q) ==
            match MatchHour(c, q) case None => None case Some(h) => Some(Token(h.value, |pre| + h.end))
  {
    CharInShift(pre, c, q, '2', '2');
    CharInShift(pre, c, q + 1, '0', '3');
    CharInShift(pre, c, q, '0', '1');
    CharInShift(pre, c, q + 1, '0', '9');
    CharInShift(pre, c, q, '0', '9');
  }

  lemma MatchMinuteShift(pre: string, c: string, q: nat)
    ensures MatchMinute(pre + c, |pre| + q) ==
            match MatchMinute(c, q) case None => None case Some(h) => Some(Token(h.value, |pre| + h.end))
  {
    CharInShift(pre, c, q, '0', '5');
    CharInShift(pre, c, q + 1, '0', '9');
    CharInShift(pre, c, q, '0', '9');
  }

  /** A date and a clock time that parse on their own parse together once joined
      by a space, as `strptime(f"{date} {time}", "%Y-%m-%d %H:%M")` does. */
  lemma ParseJoined(date: string, clock: string)
    requires ParseDate(date).Some? && ParseClock(clock).Some?
    ensures var d := ParseDate(date).value;
            var (h, m) := ParseClock(clock).value;
            ParseDateTime(date + " " + clock) == Some(Moment(d.year, d.month, d.day, h, m))
  {
    var pre := date + " ";
    var s := pre + clock;
    var n := |date|;
    MatchDateFieldsPrefix(date, " " + clock);
    assert date + (" " + clock) == s;
    var t := MatchDateFields(date).value;
    assert t.end == n;
    assert IsDigit(clock[0]);
    assert s[n] == ' ' && s[n + 1] == clock[0];
    SkipOneSpace(s, n);
    ClockShifted(pre, clock);
    var (h, m) := ParseClock(clock).value;
    ClockRange(clock);
    assert ValidMoment(Moment(t.year, t.month, t.day, h, m));
  }

  /** One space before a character that is not one: `\s+` takes just it. */
  lemma SkipOneSpace(s: string, n: nat)
    requires n + 1 < |s| && IsSpace(s[n]) && !IsSpace(s[n + 1])
    ensures SkipSpaces(s, n) == n + 1
  {
    assert SkipSpaces(s, n + 1) == n + 1;
  }

  /** A parsed clock time is an hour and a minute in range. */
  lemma ClockRange(clock: string)
    requires ParseClock(clock).Some?
    ensures 0 <= ParseClock(clock).value.0 <= 23 && 0 <= ParseClock(clock).value.1 <= 59
  {
  }

  /** A clock time is matched the same way after any prefix. */
  lemma ClockShifted(pre: string, clock: string)
    requires ParseClock(clock).Some?
    ensures MatchHour(clock, 0).Some? && MatchMinute(clock, MatchHour(clock, 0).value.end + 1).Some?
    ensures var h := MatchHour(clock, 0).value;
            var mi := MatchMinute(clock, h.end + 1).value;
            && ParseClock(clock).value == (h.value, mi.value)
            && MatchHour(pre + clock, |pre|) == Some(Token(h.value, |pre| + h.end))
            && CharIn(pre + clock, |pre| + h.end, ':', ':')
            && MatchMinute(pre + clock, |pre| + h.end + 1) == Some(Token(mi.value, |pre| + mi.end))
            && |pre| + mi.end == |pre + clock|
  {
    var h := MatchHour(clock, 0).value;
    MatchHourShift(pre, clock, 0);
    CharInShift(pre, clock, h.end, ':', ':');
    MatchMinuteShift(pre, clock, h.end + 1);
  }

  /** strptime reads back what strftime writes: `"%Y-%m-%d %H:%M"`. */
  lemma ParseFormattedDateTime(t: DateTime)
    ensures ParseDateTime(FormatDate(t) + " " + FormatClock(t)) == Some(t)
  {
    ParseFormattedDate(t);
    ParseFormattedClock(t);
    ParseJoined(FormatDate(t), FormatClock(t));
  }

  /** Days from 0001-01-01 to January 1st of year `y`, proleptic Gregorian. */
  function DaysBeforeYear(y: int): int
    requires y >= 1
  {
    var z := y - 1;
    365 * z + z / 4 - z / 100 + z / 400
  }

  /** Days from January 1st to the first of month `m` in year `y`. */
  function DaysBeforeMonth(y: int, m: int): nat
    requires 1 <= m <= 12
    decreases m
  {
    if m == 1 then 0 else DaysBeforeMonth(y, m - 1) + DaysInMonth(y, m - 1)
  }

  /** The instant as whole minutes since 0001-01-01 00:00. */
  function ToMinutes(t: DateTime): int {
    ((DaysBeforeYear(t.year) + DaysBeforeMonth(t.year, t.month) + t.day - 1) * 24 + t.hour) * 60 + t.minute
  }

  function DaysInYear(y: int): int {
    if IsLeapYear(y) then 366 else 365
  }

  /** The number of days since 0001-01-01, as `date.toordinal() - 1`. */
  function DayNumber(t: DateTime): int {
    DaysBeforeYear(t.year) + DaysBeforeMonth(t.year, t.month) + t.day - 1
  }

  /** Python's `a < b` on two datetimes: field by field. */
  predicate Before(a: DateTime, b: DateTime) {
    || a.year < b.year
    || (a.year == b.year && a.month < b.month)
    || (a.year == b.year && a.month == b.month && a.day < b.day)
    || (a.year == b.year && a.month == b.month && a.day == b.day && a.hour < b.hour)
    || (a.year == b.year && a.month == b.month && a.day == b.day && a.hour == b.hour && a.minute < b.minute)
  }

  lemma DaysBeforeYearStep(y: int)
    requires y >= 1
    ensures DaysBeforeYear(y + 1) == DaysBeforeYear(y) + DaysInYear(y)
  {
    var z := y - 1;
    assert (z + 1) / 4 == z / 4 + (if y % 4 == 0 then 1 else 0);
    assert (z + 1) / 100 == z / 100 + (if y % 100 == 0 then 1 else 0);
    assert (z + 1) / 400 == z / 400 + (if y % 400 == 0 then 1 else 0);
  }

  lemma {:induction false} DaysBeforeYearMonotone(y1: int, y2: int)
    requires 1 <= y1 < y2
    ensures DaysBeforeYear(y1) + DaysInYear(y1) <= DaysBeforeYear(y2)
    decreases y2 - y1
  {
    DaysBeforeYearStep(y1);
    if y1 + 1 < y2 {
      DaysBeforeYearMonotone(y1 + 1, y2);
    }
  }

  lemma {:induction false} DaysBeforeMonthMonotone(y: int, m1: int, m2: int)
    requires 1 <= m1 < m2 <= 12
    ensures DaysBeforeMonth(y, m1) + DaysInMonth(y, m1) <= DaysBeforeMonth(y, m2)
    decreases m2 - m1
  {
    if m1 + 1 < m2 {
      DaysBeforeMonthMonotone(y, m1, m2 - 1);
    }
  }

  lemma DaysBeforeDecember(y: int)
    ensures DaysBeforeMonth(y, 12) + 31 == DaysInYear(y)
  {
    assert DaysBeforeMonth(y, 3) == 31 + DaysInMonth(y, 2);
    assert DaysBeforeMonth(y, 6) == DaysBeforeMonth(y, 3) + 92;
    assert DaysBeforeMonth(y, 9) == DaysBeforeMonth(y, 6) + 92;
  }

  /** A day of the year never reaches the next year. */
  lemma DayOfYearBound(t: DateTime)
    ensures DaysBeforeMonth(t.year, t.month) + t.day <= DaysInYear(t.year)
  {
    DaysBeforeDecember(t.year);
    if t.month < 12 {
      DaysBeforeMonthMonotone(t.year, t.month, 12);
    }
  }

  lemma BeforeMinutes(a: DateTime, b: DateTime)
    requires Before(a, b)
    ensures ToMinutes(a) < ToMinutes(b)
  {
    assert ToMinutes(a) == DayNumber(a) * 1440 + a.hour * 60 + a.minute;
    assert ToMinutes(b) == DayNumber(b) * 1440 + b.hour * 60 + b.minute;
    if a.year < b.year {
      DayOfYearBound(a);
      DaysBeforeYearMonotone(a.year, b.year);
      assert DayNumber(a) < DayNumber(b);
    } else if a.month < b.month {
      DaysBeforeMonthMonotone(a.year, a.month, b.month);
      assert DayNumber(a) < DayNumber(b);
    }
  }

  /** Comparing two datetimes is comparing their minute counts, so the model
      may order instants by `ToMinutes`. */
  lemma ToMinutesOrder(a: DateTime, b: DateTime)
    ensures Before(a, b) <==> ToMinutes(a) < ToMinutes(b)
    ensures a == b <==> ToMinutes(a) == ToMinutes(b)
  {
    if Before(a, b) {
      BeforeMinutes(a, b);
    } else if Before(b, a) {
      BeforeMinutes(b, a);
    } else {
      assert a == b;
    }
  }
}
