/** The console booking flow of `core/booking_handler.py`: prefix-regex
    validation of date and time, the half-open overlap test against the
    calendar, and the order in which the flow applies them. */
module BookingHandler {
  import opened Common
  import opened Text
  import opened DateTimes

  /** An appointment on the calendar, its begin and end as minute counts. */
  datatype CalendarEvent = CalendarEvent(name: string, begin: int, end: int, description: string)

  /** `validate_date`: `re.match(r"\d{4}-\d{2}-\d{2}", s)` matches at the
      start; what follows is not looked at and neither is the calendar. */
  predicate ValidateDate(s: string) {
    DateShapeAt(s, 0)
  }

  /** `validate_time`: `re.match(r"\d{2}:\d{2}", s)`, the same kind of prefix test. */
  predicate ValidateTime(s: string) {
    ClockShapeAt(s, 0)
  }

  /** `re.match` anchors only at the start: the date test looks at the first
      ten characters and no further, so whatever follows a passing date is let
      through with it. */
  lemma {:induction false} ValidateDateIsPrefixTest(s: string, t: string)
    ensures ValidateDate(s) <==> |s| >= 10 && ValidateDate(s[..10])
    ensures ValidateDate(s) ==> ValidateDate(s + t)
  {
    assert forall k :: 0 <= k < |s| ==> (s + t)[k] == s[k];
    if |s| >= 10 {
      assert forall k :: 0 <= k < 10 ==> s[..10][k] == s[k];
    }
  }

  /** The time test likewise reads the first five characters only. */
  lemma {:induction false} ValidateTimeIsPrefixTest(s: string, t: string)
    ensures ValidateTime(s) <==> |s| >= 5 && ValidateTime(s[..5])
    ensures ValidateTime(s) ==> ValidateTime(s + t)
  {
    assert forall k :: 0 <= k < |s| ==> (s + t)[k] == s[k];
    if |s| >= 5 {
      assert forall k :: 0 <= k < 5 ==> s[..5][k] == s[k];
    }
  }

  /** Whatever `strftime("%Y-%m-%d")` and `strftime("%H:%M")` write passes the
      two tests. */
  lemma FormattedPassesValidators(t: DateTime)
    ensures ValidateDate(FormatDate(t)) && ValidateTime(FormatClock(t))
  {
    var d, c := FormatDate(t), FormatClock(t);
    assert d[4] == '-' && d[7] == '-' && c[2] == ':';
  }

  /** The test of `is_time_conflict`: `start < event.end and end > event.begin`. */
  predicate Overlaps(start: int, end: int, ev: CalendarEvent) {
    start < ev.end && end > ev.begin
  }

  /** Some event of the calendar overlaps `[start, end)`. */
  predicate AnyOverlap(start: int, end: int, events: seq<CalendarEvent>) {
    exists i :: 0 <= i < |events| && Overlaps(start, end, events[i])
  }

  /** Minute `m` lies in the half-open interval `[lo, hi)`. */
  predicate During(m: int, lo: int, hi: int) {
    lo <= m < hi
  }

  /** For non-empty intervals the test is exactly "the two share a minute". */
  lemma OverlapsIffCommonMinute(start: int, end: int, ev: CalendarEvent)
    requires start < end && ev.begin < ev.end
    ensures Overlaps(start, end, ev) <==> exists m :: During(m, start, end) && During(m, ev.begin, ev.end)
  {
    if Overlaps(start, end, ev) {
      var m := if start < ev.begin then ev.begin else start;
      assert During(m, start, end) && During(m, ev.begin, ev.end);
    }
  }

  /** Swapping the two intervals gives the same answer. */
  lemma OverlapsSymmetric(s1: int, e1: int, s2: int, e2: int, n: string, d: string)
    ensures Overlaps(s1, e1, CalendarEvent(n, s2, e2, d)) == Overlaps(s2, e2, CalendarEvent(n, s1, e1, d))
  {
  }

  /** Intervals that only touch do not conflict. */
  lemma TouchingDoesNotOverlap(start: int, end: int, ev: CalendarEvent)
    requires end == ev.begin || start == ev.end
    ensures !Overlaps(start, end, ev)
  {
  }

  /** What `is_time_conflict` does: answers, or raises when `strptime` refuses
      or when the end of the interval falls outside the `datetime` range. */
  datatype ConflictCheck = Checked(conflict: bool) | Failed(error: string)

  /** The minute count of `datetime.max` taken to the minute, 9999-12-31 23:59;
      `datetime.min`, 0001-01-01 00:00, is minute 0. */
  const LastMinute: int := 5258964959

  /** `datetime + timedelta(minutes=...)` gives a `datetime` only when the sum
      lies between `datetime.min` and `datetime.max`; otherwise it raises
      OverflowError. */
  predicate InDatetimeRange(m: int) {
    0 <= m <= LastMinute
  }

  /** `datetime.min` and `datetime.max` to the minute. */
  const FirstMoment: DateTime := Moment(1, 1, 1, 0, 0)
  const LastMoment: DateTime := Moment(9999, 12, 31, 23, 59)

  /** The bounds are the first and the last minute a `datetime` can hold. */
  lemma DatetimeRangeEnds()
    ensures ToMinutes(FirstMoment) == 0
    ensures ToMinutes(LastMoment) == LastMinute
  {
    LastMomentMinutes();
  }

  lemma LastMomentMinutes()
    ensures ToMinutes(LastMoment) == 5258964959
  {
    DaysBeforeDecember(9999);
    assert DaysBeforeYear(9999) == 3651694;
  }

  /** `is_time_conflict(date_str, time_str, duration_minutes)` over the events
      `load_calendar()` returns. */
  method IsTimeConflict(dateStr: string, timeStr: string, durationMinutes: int, events: seq<CalendarEvent>)
    returns (r: ConflictCheck)
    ensures ParseDateTime(dateStr + " " + timeStr).None? ==> r == Failed("ValueError")
    ensures ParseDateTime(dateStr + " " + timeStr).Some? ==>
              var start := ToMinutes(ParseDateTime(dateStr + " " + timeStr).value);
              && (!InDatetimeRange(start + durationMinutes) ==> r == Failed("OverflowError"))
              && (InDatetimeRange(start + durationMinutes) ==> r == Checked(AnyOverlap(start, start + durationMinutes, events)))
  {
    var parsed := ParseDateTime(dateStr + " " + timeStr);
    if parsed.None? {
      return Failed("ValueError");
    }
    var start := ToMinutes(parsed.value);
    var end := start + durationMinutes;
    if !InDatetimeRange(end) {
      return Failed("OverflowError");
    }
    var i := 0;
    while i < |events|
      invariant 0 <= i <= |events|
      invariant forall j :: 0 <= j < i ==> !Overlaps(start, end, events[j])
    {
      if start < events[i].end && end > events[i].begin {
        return Checked(true);
      }
      i := i + 1;
    }
    return Checked(false);
  }

  /** Every `datetime` lies in the range, so an overflow is always the sum's doing. */
  lemma MinutesInRange(t: DateTime)
    ensures InDatetimeRange(ToMinutes(t))
  {
    assert ToMinutes(t) <= ToMinutes(LastMoment) by {
      assert !Before(LastMoment, t);
      ToMinutesOrder(LastMoment, t);
    }
    LastMomentMinutes();
  }

  /** Adding the default 30 minutes overflows exactly in the last half hour of
      year 9999. */
  lemma LastHalfHour(t: DateTime)
    ensures !InDatetimeRange(ToMinutes(t) + DefaultDuration) <==>
              t.year == 9999 && t.month == 12 && t.day == 31 && t.hour == 23 && t.minute >= 30
  {
    MinutesInRange(t);
    var u: DateTime := Moment(9999, 12, 31, 23, 30);
    assert ToMinutes(u) == LastMinute - 29;
    ToMinutesOrder(t, u);
  }

  /** An appointment just added occupies its own slot: checking the same slot
      again conflicts, while an empty calendar never does. */
  lemma ConflictWithItself(start: int, duration: int, events: seq<CalendarEvent>, name: string, description: string)
    requires duration > 0
    ensures AnyOverlap(start, start + duration, events + [CalendarEvent(name, start, start + duration, description)])
    ensures !AnyOverlap(start, start + duration, [])
  {
    var all := events + [CalendarEvent(name, start, start + duration, description)];
    assert Overlaps(start, start + duration, all[|events|]);
  }

  /** What `handle_booking_flow` ends with. */
  datatype BookingOutcome =
    | InvalidDate                 // "❌ Invalid date format."
    | InvalidTime                 // "❌ Invalid time format."
    | Conflict                    // "⚠️ Conflict: There's already an appointment at that time."
    | Booked(event: CalendarEvent) // added by `add_appointment`, then "✅ Booking confirmed ..."
    | Crashed(error: string)      // an exception escapes the flow

  /** The length `is_time_conflict` and `add_appointment` use by default. */
  const DefaultDuration: int := 30

  /** The event `add_appointment(name, service, date, time)` adds. */
  function AppointmentEvent(name: string, service: string, start: DateTime): CalendarEvent {
    CalendarEvent(service + " for " + name, ToMinutes(start), ToMinutes(start) + DefaultDuration,
                  "Service: " + service + "\nCustomer: " + name)
  }

  /** The booking steps once the four inputs have been read and stripped:
      date check, time check, conflict check, then the appointment. */
  function BookingSteps(name: string, service: string, date: string, time: string,
                        events: seq<CalendarEvent>): BookingOutcome
  {
    if !ValidateDate(date) then InvalidDate
    else if !ValidateTime(time) then InvalidTime
    else match ParseDateTime(date + " " + time)
      case None => Crashed("ValueError")
      case Some(start) =>
        if !InDatetimeRange(ToMinutes(start) + DefaultDuration) then Crashed("OverflowError")
        else if AnyOverlap(ToMinutes(start), ToMinutes(start) + DefaultDuration, events) then Conflict
        else Booked(AppointmentEvent(name, service, start))
  }

  /** `handle_booking_flow()` given the four lines typed in and the calendar. */
  function HandleBookingFlow(name: string, service: string, date: string, time: string,
                             events: seq<CalendarEvent>): BookingOutcome
  {
    BookingSteps(Strip(name), Strip(service), Strip(date), Strip(time), events)
  }

  /** The checks come in order and the appointment is added only when all of
      them pass: a bad date wins over a bad time, a bad time over a conflict. */
  lemma BookingCheckOrder(name: string, service: string, date: string, time: string, events: seq<CalendarEvent>)
    ensures var r := BookingSteps(name, service, date, time, events);
            && (r == InvalidDate <==> !ValidateDate(date))
            && (r == InvalidTime <==> ValidateDate(date) && !ValidateTime(time))
            && (r.Booked? ==>
                  && ValidateDate(date) && ValidateTime(time)
                  && var start := ParseDateTime(date + " " + time);
                     start.Some? && r.event == AppointmentEvent(name, service, start.value)
                     && !AnyOverlap(r.event.begin, r.event.end, events))
  {
  }

  /** The prefix tests let through dates the calendar does not have and text
      after the time: "2025-02-31" and "99:99" and "10:30pm" all pass. */
  lemma PrefixValidatorsAreLoose()
    ensures ValidateDate("2025-02-31") && ParseDate("2025-02-31").None?
    ensures ValidateTime("99:99") && ValidateTime("10:30pm")
  {
    var s := "2025-02-31";
    assert MatchDateFields(s) == Some(DateToken(2025, 2, 31, 10)) by {
      assert MatchYear(s, 0) == Some(Token(2025, 4));
      assert MatchMonth(s, 5) == Some(Token(2, 7));
      assert MatchDay(s, 8) == Some(Token(31, 10));
    }
  }

  /** `strptime("2025-02-31 10:00", "%Y-%m-%d %H:%M")` raises: February 2025
      has 28 days. */
  lemma ImpossibleDateRefused()
    ensures ParseDateTime("2025-02-31 10:00").None?
  {
    var s := "2025-02-31 10:00";
    assert MatchDateFields(s) == Some(DateToken(2025, 2, 31, 10)) by {
      assert MatchYear(s, 0) == Some(Token(2025, 4));
      assert MatchMonth(s, 5) == Some(Token(2, 7));
      assert MatchDay(s, 8) == Some(Token(31, 10));
    }
    assert SkipSpaces(s, 11) == 11;
    assert SkipSpaces(s, 10) == 11;
    assert MatchHour(s, 11) == Some(Token(10, 13));
    assert MatchMinute(s, 14) == Some(Token(0, 16));
    assert !ValidMoment(Moment(2025, 2, 31, 10, 0));
  }

  /** As written, a date the validator lets through but `strptime` refuses
      makes `is_time_conflict` raise ValueError, which nothing catches:
      whoever books and for whatever service, "2025-02-31" at "10:00" crashes. */
  lemma BookingCrashesOnImpossibleDate(name: string, service: string, events: seq<CalendarEvent>)
    ensures HandleBookingFlow(name, service, "2025-02-31", "10:00", events) == Crashed("ValueError")
  {
    ImpossibleDateStripped();
    ClockStripped();
    CrashingSteps(Strip(name), Strip(service), events);
  }

  /** As written, a valid booking in the last half hour of year 9999 raises:
      `start + timedelta(minutes=30)` passes `datetime.max`. */
  lemma LastSlotOverflows(name: string, service: string, events: seq<CalendarEvent>)
    ensures BookingSteps(name, service, "9999-12-31", "23:59", events) == Crashed("OverflowError")
  {
    var s := "9999-12-31 23:59";
    assert "9999-12-31" + " " + "23:59" == s;
    assert MatchDateFields(s) == Some(DateToken(9999, 12, 31, 10)) by {
      assert MatchYear(s, 0) == Some(Token(9999, 4));
      assert MatchMonth(s, 5) == Some(Token(12, 7));
      assert MatchDay(s, 8) == Some(Token(31, 10));
    }
    assert SkipSpaces(s, 11) == 11;
    assert SkipSpaces(s, 10) == 11;
    assert MatchHour(s, 11) == Some(Token(23, 13));
    assert MatchMinute(s, 14) == Some(Token(59, 16));
    assert ParseDateTime(s) == Some(LastMoment);
    LastHalfHour(LastMoment);
    assert ValidateDate("9999-12-31") && ValidateTime("23:59");
  }

  lemma ImpossibleDateStripped()
    ensures Strip("2025-02-31") == "2025-02-31"
  {
    StripOfUnpadded("2025-02-31");
  }

  lemma ClockStripped()
    ensures Strip("10:00") == "10:00"
  {
    StripOfUnpadded("10:00");
  }

  lemma CrashingSteps(name: string, service: string, events: seq<CalendarEvent>)
    ensures BookingSteps(name, service, "2025-02-31", "10:00", events) == Crashed("ValueError")
  {
    assert "2025-02-31" + " " + "10:00" == "2025-02-31 10:00";
    ImpossibleDateRefused();
    assert ValidateDate("2025-02-31") && ValidateTime("10:00");
  }

  /** The booking steps with the validators the flow evidently means: a date
      and a time `strptime` accepts (`%Y-%m-%d` and `%H:%M`). What is left to
      raise is the OverflowError of an appointment that would end after
      9999-12-31 23:59. */
  function BookingStepsChecked(name: string, service: string, date: string, time: string,
                               events: seq<CalendarEvent>): (r: BookingOutcome)
    ensures r.Crashed? ==> r == Crashed("OverflowError")
    ensures r == InvalidDate <==> ParseDate(date).None?
    ensures r == InvalidTime <==> ParseDate(date).Some? && ParseClock(time).None?
    ensures r.Crashed? <==> ParseDate(date).Some? && ParseClock(time).Some? &&
                             ParseDateTime(date + " " + time).Some? &&
                             ToMinutes(ParseDateTime(date + " " + time).value) + DefaultDuration > LastMinute
    ensures r.Booked? <==> ParseDate(date).Some? && ParseClock(time).Some? &&
                            ParseDateTime(date + " " + time).Some? &&
                            var start := ParseDateTime(date + " " + time).value;
                            ToMinutes(start) + DefaultDuration <= LastMinute &&
                            !AnyOverlap(ToMinutes(start), ToMinutes(start) + DefaultDuration, events)
  {
    if ParseDate(date).None? then InvalidDate
    else if ParseClock(time).None? then InvalidTime
    else
      ParseJoined(date, time);
      var start := ParseDateTime(date + " " + time).value;
      MinutesInRange(start);
      if !InDatetimeRange(ToMinutes(start) + DefaultDuration) then Crashed("OverflowError")
      else if AnyOverlap(ToMinutes(start), ToMinutes(start) + DefaultDuration, events) then Conflict
      else Booked(AppointmentEvent(name, service, start))
  }

  /** `handle_booking_flow()` with those validators: the only exception left
      is the OverflowError of a booking in the last half hour of year 9999. */
  function HandleBookingFlowChecked(name: string, service: string, date: string, time: string,
                                    events: seq<CalendarEvent>): (r: BookingOutcome)
    ensures r.Crashed? ==> r == Crashed("OverflowError")
    ensures r.Crashed? <==>
              && ParseDate(Strip(date)).Some? && ParseClock(Strip(time)).Some?
              && var start := ParseDateTime(Strip(date) + " " + Strip(time));
                 && start.Some?
                 && start.value.year == 9999 && start.value.month == 12 && start.value.day == 31
                 && start.value.hour == 23 && start.value.minute >= 30
  {
    var d, t := Strip(date), Strip(time);
    if ParseDate(d).Some? && ParseClock(t).Some? then
      ParseJoined(d, t);
      LastHalfHour(ParseDateTime(d + " " + t).value);
      BookingStepsChecked(Strip(name), Strip(service), d, t, events)
    else
      BookingStepsChecked(Strip(name), Strip(service), d, t, events)
  }
}
