/** The call flow of `assistant/assistant.py`: intent classification, the
    informational replies, slot clarification with bounded attempts,
    confirmation through the language model, conflict handling with one
    suggested alternative, finalisation and escalation. */
module Assistant {
  import opened Common
  import opened Text
  import opened DateTimes
  import opened Values
  import opened Session
  import opened StructuredLogger
  import opened IoAdapter
  import opened Conversation
  import opened Escalation
  import opened Settings
  import opened SlotExtractor

  // ---------------------------------------------------------------- intents

  datatype Intent = Booking | Pricing | Information | General {
    /** The string `classify_intent` returns. */
    function Name(): string {
      match this
      case Booking => "booking"
      case Pricing => "pricing"
      case Information => "information"
      case General => "general"
    }
  }

  const BookingWords: seq<string> := ["book", "appointment", "schedule", "reserve"]
  const PricingWords: seq<string> := ["price", "cost", "how much", "fee", "charge"]
  const InfoWords: seq<string> := ["what", "when", "hours", "open", "close", "availability"]

  /** `classify_intent(user_input)`: keyword groups tried in order on the
      lower-cased input; the first group with a hit decides. */
  function ClassifyIntent(userInput: string): (intent: Intent)
    ensures intent == Booking <==> ContainsAny(Lower(userInput), BookingWords)
    ensures intent == Pricing <==> !ContainsAny(Lower(userInput), BookingWords) && ContainsAny(Lower(userInput), PricingWords)
    ensures intent == Information <==>
              && !ContainsAny(Lower(userInput), BookingWords) && !ContainsAny(Lower(userInput), PricingWords)
              && ContainsAny(Lower(userInput), InfoWords)
  {
    var lowered := Lower(userInput);
    if ContainsAny(lowered, BookingWords) then Booking
    else if ContainsAny(lowered, PricingWords) then Pricing
    else if ContainsAny(lowered, InfoWords) then Information
    else General
  }

  /** Classification ignores letter case. */
  lemma ClassifyIgnoresCase(userInput: string)
    ensures ClassifyIntent(Lower(userInput)) == ClassifyIntent(userInput)
  {
    LowerIdempotent(userInput);
  }

  /** A word with a character that `s` lacks does not occur in `s`. */
  lemma AbsentChar(s: string, w: string, k: nat)
    requires k < |w| && w[k] !in s
    ensures !Contains(s, w)
  {
    forall i | 0 <= i <= |s| - |w|
      ensures !OccursAt(s, w, i)
    {
      assert s[i + k] in s;
      assert s[i..i + |w|][k] == s[i + k];
    }
  }

  // ----------------------------------------------------------- validators

  /** `validate_date_format(date_str)`: `strptime(date_str, "%Y-%m-%d")` succeeds. */
  function ValidateDateFormat(dateStr: string): (ok: bool)
    ensures ok <==> ParseDate(dateStr).Some?
  {
    ParseDate(dateStr).Some?
  }

  /** `validate_time_format(time_str)`: exactly one colon, both sides read by
      `int()`, hour in 0..23 and minute in 0..59. */
  function ValidateTimeFormat(timeStr: string): (ok: bool)
    ensures ok ==> Count(timeStr, ':') == 1
  {
    var parts := Split(timeStr, ':');
    SplitCount(timeStr, ':');
    if |parts| != 2 then false
    else match (PyInt(parts[0]), PyInt(parts[1]))
      case (Some(h), Some(m)) => 0 <= h <= 23 && 0 <= m <= 59
      case _ => false
  }

  /** The validator read through the first colon at `i`: it accepts exactly
      when no second colon follows and `int()` reads an hour in 0..23 before
      the colon and a minute in 0..59 after it. */
  lemma ValidateTimeFormatMeans(s: string, i: nat)
    requires i < |s| && s[i] == ':' && ':' !in s[..i]
    ensures ValidateTimeFormat(s) <==>
              && ':' !in s[i + 1..]
              && PyInt(s[..i]).Some? && 0 <= PyInt(s[..i]).value <= 23
              && PyInt(s[i + 1..]).Some? && 0 <= PyInt(s[i + 1..]).value <= 59
  {
    var hour, rest := s[..i], s[i + 1..];
    SplitAround(s, i);
    SplitAtFirst(hour, rest, ':');
    SplitOnePiece(rest, ':');
    if ':' !in rest {
      SplitWithoutSeparator(rest, ':');
      assert Split(s, ':') == [hour, rest];
    }
  }

  /** Without a colon the validator always refuses. */
  lemma ValidateTimeNeedsColon(s: string)
    requires ':' !in s
    ensures !ValidateTimeFormat(s)
  {
    SplitWithoutSeparator(s, ':');
  }

  /** Every time `strptime(..., "%H:%M")` reads, the clarification validator
      accepts too. */
  lemma ClockPassesValidator(timeStr: string)
    requires ParseClock(timeStr).Some?
    ensures ValidateTimeFormat(timeStr)
  {
    var hour, minute := ClockParts(timeStr);
    DigitsSplit(hour, minute);
    ValidFromParts(timeStr, hour, minute);
  }

  /** A parsed clock time is digits, a colon and digits, and `int()` reads both
      sides as an hour and a minute in range. */
  lemma ClockParts(timeStr: string) returns (hour: string, minute: string)
    requires ParseClock(timeStr).Some?
    ensures timeStr == hour + [':'] + minute
    ensures forall k :: 0 <= k < |hour| ==> IsDigit(hour[k])
    ensures forall k :: 0 <= k < |minute| ==> IsDigit(minute[k])
    ensures PyInt(hour).Some? && 0 <= PyInt(hour).value <= 23
    ensures PyInt(minute).Some? && 0 <= PyInt(minute).value <= 59
  {
    var h := ClockColon(timeStr);
    hour := timeStr[..h.end];
    minute := timeStr[h.end + 1..];
    SplitAround(timeStr, h.end);
    HourValue(timeStr, h);
    assert PyInt(hour) == Some(h.value);
    MinuteValue(timeStr, h.end + 1);
    assert PyInt(minute) == Some(MatchMinute(timeStr, h.end + 1).value.value);
  }

  lemma SplitAround(s: string, i: nat)
    requires i < |s|
    ensures s == s[..i] + [s[i]] + s[i + 1..]
  {
  }

  /** Where `%H` ends in a parsed clock time, and what follows it there. */
  lemma ClockColon(timeStr: string) returns (h: Token)
    requires ParseClock(timeStr).Some?
    ensures MatchHour(timeStr, 0) == Some(h) && h.end < |timeStr| && timeStr[h.end] == ':'
    ensures MatchMinute(timeStr, h.end + 1).Some? && MatchMinute(timeStr, h.end + 1).value.end == |timeStr|
  {
    h := MatchHour(timeStr, 0).value;
  }

  lemma ValidFromParts(s: string, hour: string, minute: string)
    requires Split(s, ':') == [hour, minute]
    requires PyInt(hour).Some? && 0 <= PyInt(hour).value <= 23
    requires PyInt(minute).Some? && 0 <= PyInt(minute).value <= 59
    ensures ValidateTimeFormat(s)
  {
  }

  /** Plain digits are read by `int()` as their decimal value. */
  lemma DigitsInt(s: string)
    requires |s| > 0 && forall k :: 0 <= k < |s| ==> IsDigit(s[k])
    ensures PyInt(s) == Some(DecimalValue(s))
  {
    assert DigitRun(s);
    PyIntOfDigitRun(s);
  }

  lemma DigitsSplit(a: string, b: string)
    requires forall k :: 0 <= k < |a| ==> IsDigit(a[k])
    requires forall k :: 0 <= k < |b| ==> IsDigit(b[k])
    ensures Split(a + [':'] + b, ':') == [a, b]
  {
    assert ':' !in a && ':' !in b;
    SplitAtFirst(a, b, ':');
    SplitWithoutSeparator(b, ':');
  }

  /** Two digits are read by `int()` as a two-digit decimal number. */
  lemma TwoDigitsInt(t: string, v: int)
    requires |t| == 2 && IsDigit(t[0]) && IsDigit(t[1])
    requires v == 10 * DigitValue(t[0]) + DigitValue(t[1])
    ensures PyInt(t) == Some(v)
    ensures forall k :: 0 <= k < |t| ==> IsDigit(t[k])
  {
    assert t[..1][..0] == [];
    assert DecimalValue(t[..1]) == DigitValue(t[0]);
    assert DecimalValue(t) == v;
    DigitsInt(t);
  }

  /** One digit is read by `int()` as its value. */
  lemma OneDigitInt(t: string, v: int)
    requires |t| == 1 && IsDigit(t[0])
    requires v == DigitValue(t[0])
    ensures PyInt(t) == Some(v)
    ensures forall k :: 0 <= k < |t| ==> IsDigit(t[k])
  {
    assert t[..0] == [];
    assert DecimalValue(t) == v;
    DigitsInt(t);
  }

  /** The digits `%H` matched and the hour `int()` reads from them. */
  lemma HourValue(s: string, h: Token)
    requires MatchHour(s, 0) == Some(h)
    ensures 0 < h.end <= |s|
    ensures var t := s[..h.end]; (forall k :: 0 <= k < |t| ==> IsDigit(t[k])) && PyInt(t) == Some(h.value)
    ensures h.value <= 23
  {
    var t := s[..h.end];
    if CharIn(s, 0, '2', '2') && CharIn(s, 1, '0', '3') {
      assert |t| == 2 && t[0] == s[0] && t[1] == s[1];
      TwoDigitsInt(t, h.value);
    } else if CharIn(s, 0, '0', '1') && DigitAt(s, 1) {
      assert |t| == 2 && t[0] == s[0] && t[1] == s[1];
      TwoDigitsInt(t, h.value);
    } else {
      assert |t| == 1 && t[0] == s[0];
      OneDigitInt(t, h.value);
    }
  }

  /** The digits `%M` matched, up to the end of the text, and the minute
      `int()` reads from them. */
  lemma MinuteValue(s: string, p: nat)
    requires MatchMinute(s, p).Some? && MatchMinute(s, p).value.end == |s|
    ensures p < |s|
    ensures var t := s[p..]; (forall k :: 0 <= k < |t| ==> IsDigit(t[k])) && PyInt(t) == Some(MatchMinute(s, p).value.value)
    ensures MatchMinute(s, p).value.value <= 59
  {
    var t := s[p..];
    if CharIn(s, p, '0', '5') && DigitAt(s, p + 1) {
      assert |t| == 2 && t[0] == s[p] && t[1] == s[p + 1];
      TwoDigitsInt(t, MatchMinute(s, p).value.value);
    } else {
      assert |t| == 1 && t[0] == s[p];
      OneDigitInt(t, MatchMinute(s, p).value.value);
    }
  }

  /** The validator is looser than `strptime`: a spaced time passes it and
      then cannot be parsed. */
  lemma SpacedTimePassesValidator()
    ensures ValidateTimeFormat("9 : 05")
    ensures ParseClock("9 : 05").None?
  {
    SpacedTimeValidated();
    SpacedTimeUnparsed();
  }

  lemma SpacedTimeUnparsed()
    ensures ParseClock("9 : 05").None?
  {
  }

  lemma SpacedTimeValidated()
    ensures ValidateTimeFormat("9 : 05")
  {
    var s := "9 : 05";
    assert s == "9 " + [':'] + " 05";
    SplitAtFirst("9 ", " 05", ':');
    SplitWithoutSeparator(" 05", ':');
    SpacedHour();
    SpacedMinute();
  }

  lemma SpacedHour()
    ensures PyInt("9 ") == Some(9)
  {
    assert StripLeftBy("9 ", IntSpace) == "9 ";
    assert StripRightBy("9 ", IntSpace) == "9";
    assert DigitRun("9");
  }

  lemma SpacedMinute()
    ensures PyInt(" 05") == Some(5)
  {
    assert StripLeftBy(" 05", IntSpace) == "05";
    assert StripRightBy("05", IntSpace) == "05";
    assert DigitRun("05");
    assert "05"[..1] == "0" && "0"[..0] == "";
    assert DecimalValue("0") == 0;
    assert DecimalValue("05") == 5;
  }

  /** `parse_local_datetime(date_str, time_str)`; the Toronto time zone it
      attaches does not change the wall-clock fields. */
  function ParseLocalDateTime(dateStr: string, timeStr: string): Option<DateTime> {
    ParseDateTime(dateStr + " " + timeStr)
  }

  /** A date and a time that each pass `strptime` on their own make a
      datetime with exactly those fields. */
  lemma ParseLocalOfValid(dateStr: string, timeStr: string)
    requires ValidateDateFormat(dateStr) && ParseClock(timeStr).Some?
    ensures ParseLocalDateTime(dateStr, timeStr).Some?
    ensures var t := ParseLocalDateTime(dateStr, timeStr).value;
            && Midnight(t) == ParseDate(dateStr).value
            && (t.hour, t.minute) == ParseClock(timeStr).value
  {
    ParseJoined(dateStr, timeStr);
  }

  // ------------------------------------------------------ informational replies

  const Fallback: string := "I'm only " + "trained to " + "assist with " + "mechanic " + "shop-related " + "questions."

  /** `f"{s.get('price', 'N/A')}"`. */
  function PriceText(price: Option<Option<string>>): string {
    match price
    case None => "N/A"
    case Some(None) => "None"
    case Some(Some(p)) => p
  }

  /** The `found` list of `handle_info_intent`: one `"name: price"` line per
      configured service whose lower-cased name occurs in `lowered`, in order. */
  function PricedLines(lowered: string, services: seq<ServiceEntry>): (lines: seq<string>)
    ensures |lines| <= |services|
    decreases |services|
  {
    if services == [] then []
    else
      var rest := PricedLines(lowered, services[1..]);
      if Contains(lowered, Lower(services[0].name)) then [services[0].name + ": " + PriceText(services[0].price)] + rest
      else rest
  }

  /** A service is priced exactly when its name occurs in the input. */
  lemma {:induction false} PricedLinesExactly(lowered: string, services: seq<ServiceEntry>, line: string)
    ensures line in PricedLines(lowered, services) <==>
            exists k :: 0 <= k < |services| && Contains(lowered, Lower(services[k].name))
                        && line == services[k].name + ": " + PriceText(services[k].price)
    decreases |services|
  {
    if services != [] {
      PricedLinesExactly(lowered, services[1..], line);
      if line in PricedLines(lowered, services[1..]) {
        var k :| 0 <= k < |services[1..]| && Contains(lowered, Lower(services[1..][k].name))
                 && line == services[1..][k].name + ": " + PriceText(services[1..][k].price);
        assert services[k + 1] == services[1..][k];
      }
      if exists k :: 0 <= k < |services| && Contains(lowered, Lower(services[k].name))
                     && line == services[k].name + ": " + PriceText(services[k].price) {
        var k :| 0 <= k < |services| && Contains(lowered, Lower(services[k].name))
                 && line == services[k].name + ": " + PriceText(services[k].price);
        if k > 0 {
          assert services[1..][k - 1] == services[k];
        }
      }
    }
  }

  /** The pricing reply for the services found, or the list of options. */
  function PricingText(lowered: string, services: seq<ServiceEntry>): string {
    var found := PricedLines(lowered, services);
    if found != [] then "Pricing: " + JoinWith(found, "; ")
    else "Which service " + "are you asking " + "about? Options: " + JoinWith(NamesOf(services), ", ")
  }

  function NamesOf(services: seq<ServiceEntry>): (names: seq<string>)
    ensures |names| == |services| && forall i :: 0 <= i < |services| ==> names[i] == services[i].name
  {
    seq(|services|, i requires 0 <= i < |services| => services[i].name)
  }

  /** `We are open from {open} to {close}.` with the defaults 09:00 and 17:00. */
  function HoursText(cfg: AppConfig): string {
    var hours := cfg.hours.GetOr(HoursEntry(None, None));
    "We are open from " + hours.open.GetOr("09:00") + " to " + hours.close.GetOr("17:00") + "."
  }

  predicate AsksHours(lowered: string) {
    Contains(lowered, "hours") || Contains(lowered, "open") || Contains(lowered, "close")
  }

  /** The step name and reply of `handle_info_intent` as written: the hours
      words first, then only `"price"` or `"cost"` lead to prices. */
  function InfoReply(userInput: string, cfg: AppConfig): (r: (string, string))
    ensures AsksHours(Lower(userInput)) ==> r == ("info_response", HoursText(cfg))
    ensures !AsksHours(Lower(userInput)) && (Contains(Lower(userInput), "price") || Contains(Lower(userInput), "cost"))
            ==> r == ("pricing_response", PricingText(Lower(userInput), Services(cfg)))
    ensures r.0 == "fallback_info" <==>
            !AsksHours(Lower(userInput)) && !Contains(Lower(userInput), "price") && !Contains(Lower(userInput), "cost")
    ensures r.0 == "fallback_info" ==> r.1 == Fallback
  {
    var lowered := Lower(userInput);
    if AsksHours(lowered) then ("info_response", HoursText(cfg))
    else if Contains(lowered, "price") || Contains(lowered, "cost") then
      ("pricing_response", PricingText(lowered, Services(cfg)))
    else ("fallback_info", Fallback)
  }

  /** As written, a question classified as pricing can still get the
      fallback: "How much?" names no price word `handle_info_intent` checks. */
  lemma HowMuchFallsBack(cfg: AppConfig)
    ensures ClassifyIntent("How much?") == Pricing
    ensures InfoReply("How much?", cfg) == ("fallback_info", Fallback)
  {
    LowerHowMuch();
    HowMuchWords();
    HowMuchNoBookingWord();
    HowMuchNoInfoWord();
  }

  lemma LowerHowMuch()
    ensures Lower("How much?") == "how much?"
  {
  }

  lemma HowMuchWords()
    ensures ContainsAny("how much?", PricingWords)
  {
    assert OccursAt("how much?", PricingWords[2], 0);
  }

  lemma HowMuchNoBookingWord()
    ensures !ContainsAny("how much?", BookingWords)
  {
    AbsentChar("how much?", BookingWords[0], 0);
    AbsentChar("how much?", BookingWords[1], 1);
    AbsentChar("how much?", BookingWords[2], 0);
    AbsentChar("how much?", BookingWords[3], 0);
  }

  lemma HowMuchNoInfoWord()
    ensures !AsksHours("how much?")
    ensures !Contains("how much?", "price") && !Contains("how much?", "cost")
  {
    AbsentChar("how much?", "hours", 3);
    AbsentChar("how much?", "open", 1);
    AbsentChar("how much?", "close", 1);
    AbsentChar("how much?", "price", 0);
    AbsentChar("how much?", "cost", 3);
  }

  /** `handle_info_intent` as evidently intended: the pricing words are those
      `classify_intent` uses. */
  function InfoReplyFixed(userInput: string, cfg: AppConfig): (r: (string, string))
    ensures AsksHours(Lower(userInput)) ==> r == ("info_response", HoursText(cfg))
    ensures !AsksHours(Lower(userInput)) && ContainsAny(Lower(userInput), PricingWords)
            ==> r == ("pricing_response", PricingText(Lower(userInput), Services(cfg)))
    ensures r.0 in {"info_response", "pricing_response", "fallback_info"}
  {
    var lowered := Lower(userInput);
    if AsksHours(lowered) then ("info_response", HoursText(cfg))
    else if ContainsAny(lowered, PricingWords) then ("pricing_response", PricingText(lowered, Services(cfg)))
    else ("fallback_info", Fallback)
  }

  /** Every question classified as pricing gets the hours or a pricing reply. */
  lemma PricingNeverFallsBack(userInput: string, cfg: AppConfig)
    requires ClassifyIntent(userInput) == Pricing
    ensures InfoReplyFixed(userInput, cfg).0 in {"info_response", "pricing_response"}
  {
  }

  /** The two agree on every question that names a price word they share. */
  lemma InfoReplyFixedAgrees(userInput: string, cfg: AppConfig)
    requires InfoReply(userInput, cfg).0 != "fallback_info"
    ensures InfoReplyFixed(userInput, cfg) == InfoReply(userInput, cfg)
  {
    var lowered := Lower(userInput);
    if !AsksHours(lowered) {
      assert Contains(lowered, "price") || Contains(lowered, "cost");
      assert Contains(lowered, PricingWords[0]) || Contains(lowered, PricingWords[1]);
    }
  }

  /** The call state after `handle_info_intent`: the reply is logged, then
      recorded in the history. */
  function InfoAnswered(e: Env, userInput: string, cfg: AppConfig): (Reply, Env) {
    var (step, reply) := InfoReply(userInput, cfg);
    (Said(reply), Recorded(Logged(e, step, Null, Str(reply), None), step, Null, Str(reply), None))
  }

  // --------------------------------------------------------- the booking flow

  /** How a stage of the flow ends: the call goes on, or it returns `reply`. */
  datatype Flow = Go(env: Env) | Stop(reply: Reply, env: Env)

  /** What the language model's chat completion gives back. */
  datatype Completion = Answer(content: string) | ApiError(message: string)

  /** What the flow asks of code outside this model: the usage guard, the
      language model, and the calendar (`has_conflict`, `suggest_next_slot`
      with business hours 09:00 to 17:00 and seven days of look-ahead,
      `add_event_to_calendar`, whose result is the text of the error it
      raises, if any). */
  datatype Oracles = Oracles(
    canCallModel: bool,
    confirm: string -> Completion,
    hasConflict: (DateTime, int, Option<string>) -> Value,
    suggestNextSlot: (DateTime, int, Option<string>, int) -> Option<DateTime>,
    addEvent: (string, DateTime, int, string, Option<string>) -> Option<string>)

  const RetryMessage: string := "Okay, let's try " + "again."
  const ConflictMessage: string := "That slot is " + "unavailable due " + "to a conflict."
  const UsageLimitPrefix: string := "\U{26A0}\U{FE0F} Usage limit " + "reached. "
  const ConfirmErrorPrefix: string := "\U{26A0}\U{FE0F} Error during " + "confirmation. "
  const FinalizeErrorPrefix: string := "\U{274C} Failed to " + "finalize " + "booking. "

  function InvalidMessage(slot: string): string {
    if slot == "date" then "\U{274C} Invalid date " + "format. Use " + "YYYY-MM-DD."
    else "\U{274C} Invalid time " + "format. Use " + "HH:MM in 24h."
  }

  /** The slot value a non-empty answer sets, if it is accepted: a service is
      stripped and title-cased, a date or time stripped and validated. */
  function Accepted(slot: string, answer: string): (v: Option<string>)
    ensures slot == "service" ==> v == Some(Title(Strip(answer)))
    ensures slot == "date" ==> (v.Some? <==> ParseDate(Strip(answer)).Some?)
    ensures slot != "service" && slot != "date" ==> (v.Some? <==> ValidateTimeFormat(Strip(answer)))
    ensures v.Some? && slot != "service" ==> v.value == Strip(answer)
  {
    if slot == "service" then Some(Title(Strip(answer)))
    else if (if slot == "date" then ValidateDateFormat(Strip(answer)) else ValidateTimeFormat(Strip(answer))) then
      Some(Strip(answer))
    else None
  }

  /** One pass of the clarification loop body for `slot`: ask; an empty
      answer does nothing more. `accept` is the rule that turns a non-empty
      answer into the slot's value (`Accepted` in the assistant). */
  function ClarifyAttempt(slot: string, e: Env, accept: (string, string) -> Option<string>): (f: Env)
    ensures Grows(e, f) && f.session.escalationTriggered == e.session.escalationTriggered
    ensures f.io.idx <= e.io.idx + 1
  {
    var answer := NextAnswer(e.io);
    if answer == "" then Collected(e)
    else Answered(slot, Collected(e), answer, accept(slot, answer))
  }

  /** A non-empty answer: store and record the accepted value, or say why the
      answer was refused. */
  function Answered(slot: string, e: Env, answer: string, value: Option<string>): (f: Env)
    ensures Grows(e, f) && f.session.escalationTriggered == e.session.escalationTriggered
    ensures f.io.idx == e.io.idx
    ensures f.session.state == match value
                               case None => e.session.state
                               case Some(v) => e.session.state[slot := Str(v)]
  {
    match value
    case Some(v) =>
      var step := "clarified_" + slot;
      Logged(Recorded(Updated(e, slot, Str(v)), step, Str(answer), Null, None), step, Str(answer), Null, None)
    case None =>
      var step := slot + "_invalid";
      Logged(Recorded(Prompted(e, InvalidMessage(slot)), step, Str(answer), Null, None), step, Str(answer), Null, None)
  }

  /** The `while not session.state.get(slot_name)` loop, from attempt number
      `attempts` on. */
  function ClarifySlot(slot: string, e: Env, attempts: int, maxAttempts: int,
                       accept: (string, string) -> Option<string>): Flow
    decreases maxAttempts - attempts
  {
    if Filled(e.session.state, slot) then Go(e)
    else if attempts >= maxAttempts then
      Stop(Said(EscalationMessage()),
           Escalated(Prompted(e, EscalationMessage()), "failed_clarify_" + slot, None))
    else ClarifySlot(slot, ClarifyAttempt(slot, e, accept), attempts + 1, maxAttempts, accept)
  }

  /** The `for slot_name in missing` loop: each slot in turn, stopping at the
      first escalation. */
  function ClarifyAll(missing: seq<string>, e: Env, maxAttempts: int,
                      accept: (string, string) -> Option<string>): Flow
    decreases |missing|
  {
    if missing == [] then Go(e)
    else match ClarifySlot(missing[0], e, 0, maxAttempts, accept)
      case Stop(r, f) => Stop(r, f)
      case Go(f) => ClarifyAll(missing[1..], f, maxAttempts, accept)
  }

  /** `[s for s in ["service", "date", "time"] if not session.state.get(s)]`. */
  function MissingSlots(state: map<string, Value>): (missing: seq<string>)
    ensures forall i :: 0 <= i < |missing| ==> IsSlotKey(missing[i]) && !Filled(state, missing[i])
    ensures forall k :: IsSlotKey(k) && !Filled(state, k) ==> k in missing
  {
    (if Filled(state, "service") then [] else ["service"])
    + (if Filled(state, "date") then [] else ["date"])
    + (if Filled(state, "time") then [] else ["time"])
  }

  /** `f"{session.state.get(key)}"` for the string values this flow stores. */
  function SlotText(state: map<string, Value>, key: string): string {
    if key in state && state[key].Str? then state[key].s else ""
  }

  function ConfirmationText(state: map<string, Value>): string {
    "Just to " + "confirm: you " + "want a " + SlotText(state, "service") + " on " + SlotText(state, "date")
      + " at " + SlotText(state, "time") + ". Is that " + "correct?"
  }

  const AffirmWords: seq<string> := ["yes", "correct", "that is right", "yep", "sure"]

  predicate Affirmed(reply: string) {
    ContainsAny(reply, AffirmWords)
  }

  /** Index of the first configured service whose name equals `service`
      ignoring case. */
  function FirstNamed(services: seq<ServiceEntry>, service: string, k: nat): (r: Option<nat>)
    requires k <= |services|
    ensures r.Some? ==> k <= r.value < |services| && Lower(services[r.value].name) == Lower(service)
    ensures r.Some? ==> forall j :: k <= j < r.value ==> Lower(services[j].name) != Lower(service)
    ensures r.None? ==> forall j :: k <= j < |services| ==> Lower(services[j].name) != Lower(service)
    decreases |services| - k
  {
    if k == |services| then None
    else if Lower(services[k].name) == Lower(service) then Some(k)
    else FirstNamed(services, service, k + 1)
  }

  /** The booking's duration: the first configured service with that name
      decides, its missing duration meaning 30 minutes; no such service, 30. */
  function ServiceDuration(cfg: AppConfig, service: string): int {
    match FirstNamed(Services(cfg), service, 0)
    case None => 30
    case Some(k) => Services(cfg)[k].durationMinutes.GetOr(30)
  }

  /** With a validated configuration every configured service has a positive
      duration, so the booking's duration is positive. */
  lemma ValidatedDurationPositive(raw: ConfigSchema.RawRoot, service: string)
    requires ConfigSchema.ValidateRoot(raw).Ok?
    ensures ServiceDuration(FromRoot(ConfigSchema.ValidateRoot(raw).value), service) > 0
  {
    ConfigSchema.AcceptedRoot(raw);
  }

  /** Confirmation through the language model (lines 136-170), then the
      interpretation of its reply (173, 241-246). */
  function Confirmed(e: Env, cfg: AppConfig, o: Oracles): (Reply, Env) {
    var state := e.session.state;
    var ct := ConfirmationText(state);
    if !o.canCallModel then
      (Said(EscalationMessage()), Logged(Prompted(e, UsageLimitPrefix + EscalationMessage()), "usage_limit_hit", Null, Null, None))
    else match o.confirm(ct)
      case ApiError(msg) =>
        (Said(EscalationMessage()),
         Escalated(Prompted(e, ConfirmErrorPrefix + EscalationMessage()), "confirmation_llm_error", Some(map["error" := Str(msg)])))
      case Answer(content) =>
        var reply := Lower(Strip(content));
        Interpreted(ConfirmationNoted(e, ct, reply), SlotText(state, "service"), reply, cfg, o)
  }

  /** The model's normalised reply decides (lines 173, 241-246): book on an
      affirmation, otherwise ask the caller to start again. */
  function Interpreted(e: Env, service: string, reply: string, cfg: AppConfig, o: Oracles): (Reply, Env) {
    if Affirmed(reply) then Booked(e, service, cfg, o)
    else
      (Said(RetryMessage),
       Logged(Recorded(Prompted(e, RetryMessage), "confirmation_rejected", Null, Str(reply), None),
              "confirmation_rejected", Null, Str(reply), None))
  }

  /** The model's reply to the confirmation, logged and recorded as
      `confirmation_response` (lines 164-165); the slots stay. */
  function ConfirmationNoted(e: Env, ct: string, reply: string): (f: Env)
    ensures Grows(e, f) && f.session.state == e.session.state && f.io == e.io
    ensures f.session.escalationTriggered == e.session.escalationTriggered
    ensures |f.session.history| == |e.session.history| + 1
  {
    Recorded(Logged(e, "confirmation_response", Str(ct), Str(reply), None),
             "confirmation_response", Str(ct), Str(reply), None)
  }

  /** The affirmed booking (lines 175-225): parse, duration, conflict check and
      at most one suggested alternative. */
  function Booked(e: Env, service: string, cfg: AppConfig, o: Oracles): (Reply, Env) {
    match ParseLocalDateTime(SlotText(e.session.state, "date"), SlotText(e.session.state, "time"))
    case None => (Said(EscalationMessage()), Escalated(Prompted(e, EscalationMessage()), "parse_error", None))
    case Some(desired) =>
      var duration := ServiceDuration(cfg, service);
      var e1 := Updated(e, "duration_minutes", Int(duration));
      if cfg.calendar.None? then (Raised("KeyError"), e1)
      else
        var ics := cfg.calendar.value.icsPath;
        var conflicts := o.hasConflict(desired, duration, ics);
        if !Truthy(conflicts) then Finalized(e1, service, desired, duration, ics, o)
        else Conflicted(e1, service, desired, duration, ics, conflicts, IntervalMinutes(cfg), o)
  }

  /** The desired slot conflicts (lines 192-207): say so, then offer the next
      free slot the calendar suggests, or escalate when there is none. */
  function Conflicted(e: Env, service: string, desired: DateTime, duration: int, ics: Option<string>,
                      conflicts: Value, interval: int, o: Oracles): (Reply, Env) {
    var e1 := ConflictNoted(e, conflicts);
    match o.suggestNextSlot(desired, duration, ics, interval)
    case None => (Said(EscalationMessage()), Escalated(Prompted(e1, EscalationMessage()), "no_alternatives", None))
    case Some(slot) => Suggested(e1, service, slot, duration, ics, o)
  }

  /** Telling the caller about the conflict (lines 193-206): a prompt and a
      `conflict_detected` entry, recorded and logged; the slots stay. */
  function ConflictNoted(e: Env, conflicts: Value): (f: Env)
    ensures Grows(e, f) && f.session.state == e.session.state && f.io.idx == e.io.idx
    ensures f.session.escalationTriggered == e.session.escalationTriggered
    ensures |f.session.history| == |e.session.history| + 1
    ensures f.session.history[|f.session.history| - 1].step == "conflict_detected"
  {
    var extra := Some(map["conflicts" := conflicts]);
    Logged(Recorded(Prompted(e, ConflictMessage), "conflict_detected", Null, Null, extra),
           "conflict_detected", Null, Null, extra)
  }

  function SuggestionPrompt(slot: DateTime): string {
    "The next " + "available slot " + "is " + FormatDateTime(slot) + ". Do you want " + "that instead? " + "(yes/no)"
  }

  /** The offered alternative (lines 208-221): taken on an answer starting
      with "y", whatever its case. */
  function Suggested(e: Env, service: string, slot: DateTime, duration: int, ics: Option<string>, o: Oracles): (Reply, Env) {
    var e1 := Prompted(e, SuggestionPrompt(slot));
    var accept := Lower(NextAnswer(e1.io));
    var e2 := Collected(e1);
    if StartsWith(accept, "y") then Finalized(TookSuggestion(e2, slot), service, slot, duration, ics, o)
    else (Said(EscalationMessage()), Escalated(Prompted(e2, EscalationMessage()), "user_rejected_suggestion", None))
  }

  /** Taking the alternative (lines 212-216): its date and time become the
      slots, and an `accepted_suggestion` entry is recorded and logged. */
  function TookSuggestion(e: Env, slot: DateTime): (f: Env)
    ensures f.session.state == e.session.state["date" := Str(FormatDate(slot))]["time" := Str(FormatClock(slot))]
    ensures Grows(e, f) && f.io == e.io && f.session.escalationTriggered == e.session.escalationTriggered
    ensures |f.session.history| == |e.session.history| + 1
    ensures f.session.history[|e.session.history|].step == "accepted_suggestion"
  {
    var readable := FormatDateTime(slot);
    var e1 := Updated(Updated(e, "date", Str(FormatDate(slot))), "time", Str(FormatClock(slot)));
    Logged(Recorded(e1, "accepted_suggestion", Str(readable), Null, None), "accepted_suggestion", Str(readable), Null, None)
  }

  function BookedMessage(service: string, state: map<string, Value>): string {
    "\U{2705} Appointment " + "confirmed for " + service + " on " + SlotText(state, "date") + " at " + SlotText(state, "time") + "."
  }

  /** The calendar write of a booking: `add_event_to_calendar` with the title
      and description lines 228-229 build; its result is the error it raises,
      if any. */
  function AddedEvent(o: Oracles, service: string, callerNumber: string, dt: DateTime,
                      duration: int, ics: Option<string>): Option<string> {
    o.addEvent(service + " for " + callerNumber, dt, duration, "Booked service: " + service, ics)
  }

  /** Writing the appointment and confirming it (lines 228-240). */
  function Finalized(e: Env, service: string, dt: DateTime, duration: int, ics: Option<string>, o: Oracles): (Reply, Env) {
    match AddedEvent(o, service, e.session.callerNumber, dt, duration, ics)
    case Some(err) =>
      (Said(EscalationMessage()),
       Escalated(Prompted(e, FinalizeErrorPrefix + EscalationMessage()), "finalization_error", Some(map["error" := Str(err)])))
    case None =>
      var confirmation := BookedMessage(service, e.session.state);
      var e1 := Recorded(Prompted(e, confirmation), "booking_confirmed", Null,
                         Object(map["service" := Str(service), "datetime" := When(dt)]), None);
      (Said(confirmation), Logged(e1, "booking_confirmed", Null, Object(e1.session.state), None))
  }

  /** `process_interaction(user_input, session, io_adapter, max_slot_attempts)`:
      the reply and the call state after it. */
  function Interaction(userInput: string, cfg: AppConfig, o: Oracles, maxSlotAttempts: int, e: Env): (Reply, Env) {
    var intent := ClassifyIntent(userInput);
    var e1 := Heard(e, userInput, intent);
    if intent == Pricing || intent == Information then InfoAnswered(e1, userInput, cfg)
    else if intent != Booking then
      (Said(Fallback), Recorded(Logged(Prompted(e1, Fallback), "fallback", Null, Str(Fallback), None),
                                "fallback", Null, Str(Fallback), None))
    else BookingFlow(userInput, cfg, o, maxSlotAttempts, Accepted, e1)
  }

  /** The input and its intent, logged (lines 74-77). */
  function Heard(e: Env, userInput: string, intent: Intent): (f: Env)
    ensures f.session == e.session && f.io == e.io && e.log <= f.log
  {
    Logged(Logged(e, "user_input", Str(userInput), Null, None),
           "intent_classified", Str(userInput), Str(intent.Name()), None)
  }

  /** Extraction, then the clarification loops (lines 92-133) with the
      acceptance rule `accept`. */
  function Clarification(userInput: string, cfg: AppConfig, maxSlotAttempts: int,
                         accept: (string, string) -> Option<string>, e: Env): Flow {
    var e2 := Prepared(userInput, cfg, e).1;
    ClarifyAll(MissingSlots(e2.session.state), e2, maxSlotAttempts, accept)
  }

  /** A booking request (lines 92-246). */
  function BookingFlow(userInput: string, cfg: AppConfig, o: Oracles, maxSlotAttempts: int,
                       accept: (string, string) -> Option<string>, e: Env): (Reply, Env) {
    match Clarification(userInput, cfg, maxSlotAttempts, accept, e)
    case Stop(r, f) => (r, f)
    case Go(f) => Confirmed(f, cfg, o)
  }

  // ---------------------------------------------------------------- properties

  /** What any part of the flow may do to the call state: the log and the
      history only grow, the escalation flag is never cleared, the call's
      identity stays, and the script is only read forward. */
  predicate Grows(e: Env, f: Env) {
    && e.log <= f.log
    && e.session.history <= f.session.history
    && (e.session.escalationTriggered ==> f.session.escalationTriggered)
    && f.session.callId == e.session.callId && f.session.callerNumber == e.session.callerNumber
    && f.io.responses == e.io.responses && e.io.prompts <= f.io.prompts && e.io.idx <= f.io.idx
  }

  lemma GrowsTrans(e: Env, f: Env, g: Env)
    requires Grows(e, f) && Grows(f, g)
    ensures Grows(e, g)
  {
  }

  /** The clarification loop for one slot only grows the call state, and
      leaves the escalation flag alone when it goes on. */
  lemma {:induction false} ClarifySlotGrows(slot: string, e: Env, attempts: int, maxAttempts: int, accept: (string, string) -> Option<string>)
    ensures var r := ClarifySlot(slot, e, attempts, maxAttempts, accept);
            && Grows(e, r.env)
            && (r.Go? ==> r.env.session.escalationTriggered == e.session.escalationTriggered)
    decreases maxAttempts - attempts
  {
    if !Filled(e.session.state, slot) && attempts < maxAttempts {
      var e1 := ClarifyAttempt(slot, e, accept);
      ClarifySlotGrows(slot, e1, attempts + 1, maxAttempts, accept);
      GrowsTrans(e, e1, ClarifySlot(slot, e1, attempts + 1, maxAttempts, accept).env);
    }
  }

  /** The clarification loop for one slot ends with the slot filled, or with
      the escalation message, the flag set, the slot still empty and a
      `failed_clarify_<slot>` escalation logged last. */
  lemma {:induction false} ClarifySlotEnds(slot: string, e: Env, attempts: int, maxAttempts: int, accept: (string, string) -> Option<string>)
    ensures var r := ClarifySlot(slot, e, attempts, maxAttempts, accept);
            && (r.Go? ==> Filled(r.env.session.state, slot))
            && (r.Stop? ==> && r.reply == Said(EscalationMessage())
                            && r.env.session.escalationTriggered
                            && !Filled(r.env.session.state, slot)
                            && r.env.log != []
                            && r.env.log[|r.env.log| - 1] == EscalationEntry(e.session.callId, "failed_clarify_" + slot, None))
    decreases maxAttempts - attempts
  {
    if !Filled(e.session.state, slot) && attempts < maxAttempts {
      var e1 := ClarifyAttempt(slot, e, accept);
      ClarifySlotEnds(slot, e1, attempts + 1, maxAttempts, accept);
    }
  }

  /** The clarification loop for one slot changes no other slot. */
  lemma {:induction false} ClarifySlotKeepsOthers(slot: string, e: Env, attempts: int, maxAttempts: int,
                                                  accept: (string, string) -> Option<string>, k: string)
    requires k != slot
    ensures var r := ClarifySlot(slot, e, attempts, maxAttempts, accept);
            && (k in r.env.session.state <==> k in e.session.state)
            && (k in r.env.session.state ==> r.env.session.state[k] == e.session.state[k])
    decreases maxAttempts - attempts
  {
    if !Filled(e.session.state, slot) && attempts < maxAttempts {
      ClarifySlotKeepsOthers(slot, ClarifyAttempt(slot, e, accept), attempts + 1, maxAttempts, accept, k);
    }
  }

  /** Each attempt uses at most one answer: the loop reads no more answers
      than the attempts it has left. */
  lemma {:induction false} ClarifySlotBudget(slot: string, e: Env, attempts: int, maxAttempts: int, accept: (string, string) -> Option<string>)
    ensures ClarifySlot(slot, e, attempts, maxAttempts, accept).env.io.idx <= e.io.idx + (if maxAttempts > attempts then maxAttempts - attempts else 0)
    decreases maxAttempts - attempts
  {
    if !Filled(e.session.state, slot) && attempts < maxAttempts {
      ClarifySlotBudget(slot, ClarifyAttempt(slot, e, accept), attempts + 1, maxAttempts, accept);
    }
  }

  /** A caller who has run out of answers is escalated, not asked forever. */
  lemma {:induction false} SilentCallerEscalated(slot: string, e: Env, attempts: int, maxAttempts: int, accept: (string, string) -> Option<string>)
    requires !Filled(e.session.state, slot) && e.io.idx >= |e.io.responses|
    ensures ClarifySlot(slot, e, attempts, maxAttempts, accept).Stop?
    decreases maxAttempts - attempts
  {
    if attempts < maxAttempts {
      SilentCallerEscalated(slot, ClarifyAttempt(slot, e, accept), attempts + 1, maxAttempts, accept);
    }
  }

  /** An accepted, non-empty answer given while attempts remain fills the slot
      with the normalised answer, and the loop goes on. */
  lemma AcceptedAnswerFills(slot: string, e: Env, attempts: int, maxAttempts: int, accept: (string, string) -> Option<string>)
    requires !Filled(e.session.state, slot) && attempts < maxAttempts
    requires NextAnswer(e.io) != "" && accept(slot, NextAnswer(e.io)).Some?
    requires accept(slot, NextAnswer(e.io)).value != ""
    ensures var r := ClarifySlot(slot, e, attempts, maxAttempts, accept);
            r.Go? && slot in r.env.session.state && r.env.session.state[slot] == Str(accept(slot, NextAnswer(e.io)).value)
  {
    var answer := NextAnswer(e.io);
    var v := accept(slot, answer).value;
    var e0 := Collected(e);
    var e1 := Answered(slot, e0, answer, Some(v));
    assert ClarifyAttempt(slot, e, accept) == e1;
    assert e1.session.state == e0.session.state[slot := Str(v)];
    assert Filled(e1.session.state, slot);
  }

  /** After the clarification loops go through, all three slots are filled. */
  lemma {:induction false} ClarifyAllFills(missing: seq<string>, e: Env, maxAttempts: int, accept: (string, string) -> Option<string>)
    requires forall k :: IsSlotKey(k) && !Filled(e.session.state, k) ==> k in missing
    ensures var r := ClarifyAll(missing, e, maxAttempts, accept);
            && Grows(e, r.env)
            && (r.Go? ==> forall k :: IsSlotKey(k) ==> Filled(r.env.session.state, k))
            && (r.Go? ==> r.env.session.escalationTriggered == e.session.escalationTriggered)
            && (r.Stop? ==> r.reply == Said(EscalationMessage()) && r.env.session.escalationTriggered)
    decreases |missing|
  {
    if missing != [] {
      var slot := missing[0];
      ClarifySlotGrows(slot, e, 0, maxAttempts, accept);
      ClarifySlotEnds(slot, e, 0, maxAttempts, accept);
      match ClarifySlot(slot, e, 0, maxAttempts, accept)
      case Stop(_, _) =>
      case Go(f) =>
        forall k | IsSlotKey(k) && !Filled(f.session.state, k)
          ensures k in missing[1..]
        {
          assert k != slot;
          ClarifySlotKeepsOthers(slot, e, 0, maxAttempts, accept, k);
          assert k in missing;
          if k == missing[0] {
          } else {
            var i :| 0 <= i < |missing| && missing[i] == k;
            assert missing[1..][i - 1] == k;
          }
        }
        ClarifyAllFills(missing[1..], f, maxAttempts, accept);
        GrowsTrans(e, f, ClarifyAll(missing[1..], f, maxAttempts, accept).env);
    }
  }

  /** The appointment a part of the flow confirmed, read off the
      `booking_confirmed` history entry it added last; None when it added none. */
  function Appointment(e: Env, f: Env): Option<(string, DateTime)> {
    var h := f.session.history;
    if |h| <= |e.session.history| then None
    else
      var last := h[|h| - 1];
      if last.step != "booking_confirmed" || !last.output.Object? then None
      else
        var fields := last.output.fields;
        if "service" in fields && fields["service"].Str? && "datetime" in fields && fields["datetime"].When?
        then Some((fields["service"].s, fields["datetime"].t))
        else None
  }

  /** Writing the appointment either confirms it, recording the instant written,
      or escalates with nothing recorded; the slots stay as they were. */
  lemma FinalizedOutcome(e: Env, service: string, dt: DateTime, duration: int, ics: Option<string>, o: Oracles)
    ensures var (reply, f) := Finalized(e, service, dt, duration, ics, o);
            && Grows(e, f) && f.session.state == e.session.state && f.io.idx == e.io.idx
            && (AddedEvent(o, service, e.session.callerNumber, dt, duration, ics).None? ==>
                  && reply == Said(BookedMessage(service, e.session.state))
                  && Appointment(e, f) == Some((service, dt))
                  && f.session.escalationTriggered == e.session.escalationTriggered)
            && (AddedEvent(o, service, e.session.callerNumber, dt, duration, ics).Some? ==>
                  && reply == Said(EscalationMessage())
                  && f.session.escalationTriggered
                  && Appointment(e, f).None?)
  {
  }

  /** An appointment read off the last entry does not depend on where the
      comparison starts, as long as that entry is new to both. */
  lemma AppointmentSince(e: Env, m: Env, f: Env)
    requires |e.session.history| <= |m.session.history|
    requires Appointment(m, f).Some?
    ensures Appointment(e, f) == Appointment(m, f)
  {
  }

  /** Writing a taken alternative leaves the slots denoting it when read back. */
  lemma TookThenSlots(e: Env, service: string, slot: DateTime, duration: int, ics: Option<string>, o: Oracles)
    ensures var f := Finalized(TookSuggestion(e, slot), service, slot, duration, ics, o).1;
            && Grows(e, f) && f.io.idx == e.io.idx
            && f.session.state == e.session.state["date" := Str(FormatDate(slot))]["time" := Str(FormatClock(slot))]
            && ParseLocalDateTime(SlotText(f.session.state, "date"), SlotText(f.session.state, "time")) == Some(slot)
  {
    var m := TookSuggestion(e, slot);
    FinalizedOutcome(m, service, slot, duration, ics, o);
    GrowsTrans(e, m, Finalized(m, service, slot, duration, ics, o).1);
    ParseFormattedDateTime(slot);
  }

  /** Writing a taken alternative confirms the appointment at that instant,
      or escalates with nothing confirmed. */
  lemma TookThenWritten(e: Env, service: string, slot: DateTime, duration: int, ics: Option<string>, o: Oracles)
    ensures var (reply, f) := Finalized(TookSuggestion(e, slot), service, slot, duration, ics, o);
            var written := AddedEvent(o, service, e.session.callerNumber, slot, duration, ics);
            && (written.None? ==> && reply == Said(BookedMessage(service, f.session.state))
                                  && Appointment(e, f) == Some((service, slot))
                                  && f.session.escalationTriggered == e.session.escalationTriggered)
            && (written.Some? ==> reply == Said(EscalationMessage()) && f.session.escalationTriggered && Appointment(e, f).None?)
  {
    var m := TookSuggestion(e, slot);
    FinalizedOutcome(m, service, slot, duration, ics, o);
    var f := Finalized(m, service, slot, duration, ics, o).1;
    if Appointment(m, f).Some? {
      AppointmentSince(e, m, f);
    }
  }

  /** An answer starting with "y", whatever its case, takes the offered
      alternative: the date and time slots become it, and they denote it
      again when read back. */
  lemma SuggestionTaken(e: Env, service: string, slot: DateTime, duration: int, ics: Option<string>, o: Oracles)
    requires StartsWith(Lower(NextAnswer(e.io)), "y")
    ensures var f := Suggested(e, service, slot, duration, ics, o).1;
            && Grows(e, f) && f.io.idx == AfterCollect(e.io).idx
            && f.session.state == e.session.state["date" := Str(FormatDate(slot))]["time" := Str(FormatClock(slot))]
            && ParseLocalDateTime(SlotText(f.session.state, "date"), SlotText(f.session.state, "time")) == Some(slot)
  {
    var e2 := Collected(Prompted(e, SuggestionPrompt(slot)));
    SuggestedTakes(e, service, slot, duration, ics, o);
    TookThenSlots(e2, service, slot, duration, ics, o);
    GrowsTrans(e, e2, Suggested(e, service, slot, duration, ics, o).1);
  }

  /** A taken alternative is the instant written to the calendar and
      confirmed, or the call escalates with nothing confirmed. */
  lemma SuggestionWritten(e: Env, service: string, slot: DateTime, duration: int, ics: Option<string>, o: Oracles)
    requires StartsWith(Lower(NextAnswer(e.io)), "y")
    ensures var (reply, f) := Suggested(e, service, slot, duration, ics, o);
            var written := AddedEvent(o, service, e.session.callerNumber, slot, duration, ics);
            && (written.None? ==> && reply == Said(BookedMessage(service, f.session.state))
                                  && Appointment(e, f) == Some((service, slot))
                                  && f.session.escalationTriggered == e.session.escalationTriggered)
            && (written.Some? ==> reply == Said(EscalationMessage()) && f.session.escalationTriggered && Appointment(e, f).None?)
  {
    var e2 := Collected(Prompted(e, SuggestionPrompt(slot)));
    SuggestedTakes(e, service, slot, duration, ics, o);
    TookThenWritten(e2, service, slot, duration, ics, o);
    AppointmentFrom(e, e2, Suggested(e, service, slot, duration, ics, o).1);
  }

  /** An appointment confirmed after a step that added no history entry is
      one confirmed since before that step. */
  lemma AppointmentFrom(e: Env, m: Env, f: Env)
    requires m.session.history == e.session.history
    ensures Appointment(e, f) == Appointment(m, f)
  {
  }

  lemma SuggestedTakes(e: Env, service: string, slot: DateTime, duration: int, ics: Option<string>, o: Oracles)
    requires StartsWith(Lower(NextAnswer(e.io)), "y")
    ensures Suggested(e, service, slot, duration, ics, o)
            == Finalized(TookSuggestion(Collected(Prompted(e, SuggestionPrompt(slot))), slot), service, slot, duration, ics, o)
  {
    assert NextAnswer(Prompted(e, SuggestionPrompt(slot)).io) == NextAnswer(e.io);
  }

  /** Any other answer escalates and leaves the slots as they were. */
  lemma SuggestionRefused(e: Env, service: string, slot: DateTime, duration: int, ics: Option<string>, o: Oracles)
    requires !StartsWith(Lower(NextAnswer(e.io)), "y")
    ensures var (reply, f) := Suggested(e, service, slot, duration, ics, o);
            && Grows(e, f) && f.io.idx == AfterCollect(e.io).idx
            && reply == Said(EscalationMessage()) && f.session.escalationTriggered
            && f.session.state == e.session.state && Appointment(e, f).None?
  {
    assert NextAnswer(Prompted(e, SuggestionPrompt(slot)).io) == NextAnswer(e.io);
  }

  /** What a confirmed appointment means for a part of the flow that ran from
      `e` to `f` and replied `reply`: the last new history entry confirms
      `service` at `dt`, the date and time slots denote `dt` when read back,
      the calendar took the event for `duration` minutes, the caller was told,
      and the call was not escalated on the way. */
  predicate Confirms(e: Env, f: Env, reply: Reply, service: string, dt: DateTime, duration: int,
                     ics: Option<string>, o: Oracles) {
    && Appointment(e, f) == Some((service, dt))
    && ParseLocalDateTime(SlotText(f.session.state, "date"), SlotText(f.session.state, "time")) == Some(dt)
    && AddedEvent(o, service, e.session.callerNumber, dt, duration, ics).None?
    && reply == Said(BookedMessage(service, f.session.state))
    && f.session.escalationTriggered == e.session.escalationTriggered
  }

  /** A conflict with no alternative suggested escalates and confirms nothing. */
  lemma ConflictedNoAlternative(e: Env, service: string, desired: DateTime, duration: int, ics: Option<string>,
                                conflicts: Value, interval: int, o: Oracles)
    requires o.suggestNextSlot(desired, duration, ics, interval).None?
    ensures var (reply, f) := Conflicted(e, service, desired, duration, ics, conflicts, interval, o);
            && Grows(e, f) && reply == Said(EscalationMessage()) && f.session.escalationTriggered
            && f.session.state == e.session.state && Appointment(e, f).None?
  {
    var e1 := ConflictNoted(e, conflicts);
    GrowsTrans(e, e1, Conflicted(e, service, desired, duration, ics, conflicts, interval, o).1);
  }

  lemma ConflictedSuggests(e: Env, service: string, desired: DateTime, duration: int, ics: Option<string>,
                           conflicts: Value, interval: int, o: Oracles)
    requires o.suggestNextSlot(desired, duration, ics, interval).Some?
    ensures Conflicted(e, service, desired, duration, ics, conflicts, interval, o)
            == Suggested(ConflictNoted(e, conflicts), service, o.suggestNextSlot(desired, duration, ics, interval).value, duration, ics, o)
  {
  }

  /** With an alternative suggested, the slots change only to it, and the only
      appointment that can be confirmed is that alternative. */
  lemma ConflictedAlternative(e: Env, service: string, desired: DateTime, duration: int, ics: Option<string>,
                              conflicts: Value, interval: int, o: Oracles)
    requires o.suggestNextSlot(desired, duration, ics, interval).Some?
    ensures var (reply, f) := Conflicted(e, service, desired, duration, ics, conflicts, interval, o);
            var slot := o.suggestNextSlot(desired, duration, ics, interval).value;
            && Grows(e, f) && reply.Said?
            && (|| f.session.state == e.session.state
                || f.session.state == e.session.state["date" := Str(FormatDate(slot))]["time" := Str(FormatClock(slot))])
            && (Appointment(e, f).Some? ==> Confirms(e, f, reply, service, slot, duration, ics, o))
  {
    var slot := o.suggestNextSlot(desired, duration, ics, interval).value;
    var e1 := ConflictNoted(e, conflicts);
    ConflictedSuggests(e, service, desired, duration, ics, conflicts, interval, o);
    SuggestedOutcome(e1, service, slot, duration, ics, o);
    var (reply, f) := Suggested(e1, service, slot, duration, ics, o);
    AlternativeAfterNote(e, e1, f, reply, service, slot, duration, ics, o);
  }

  /** What an offered alternative promises from the state after the conflict
      was noted holds from the state before it. */
  lemma AlternativeAfterNote(e: Env, m: Env, f: Env, reply: Reply, service: string, slot: DateTime,
                             duration: int, ics: Option<string>, o: Oracles)
    requires Grows(e, m) && m.session.state == e.session.state
    requires m.session.escalationTriggered == e.session.escalationTriggered
    requires |m.session.history| == |e.session.history| + 1
    requires m.session.history[|m.session.history| - 1].step != "booking_confirmed"
    requires Grows(m, f) && reply.Said?
    requires || f.session.state == m.session.state
             || f.session.state == m.session.state["date" := Str(FormatDate(slot))]["time" := Str(FormatClock(slot))]
    requires Appointment(m, f).Some? ==> Confirms(m, f, reply, service, slot, duration, ics, o)
    ensures Grows(e, f)
    ensures || f.session.state == e.session.state
            || f.session.state == e.session.state["date" := Str(FormatDate(slot))]["time" := Str(FormatClock(slot))]
    ensures Appointment(e, f).Some? ==> Confirms(e, f, reply, service, slot, duration, ics, o)
  {
    GrowsTrans(e, m, f);
    if Appointment(m, f).Some? {
      ConfirmsSince(e, m, f, reply, service, slot, duration, ics, o);
    } else {
      UnbookedTrans(e, m, f);
    }
  }

  /** A confirmation after a step that kept the caller and the flag is one
      from before that step too. */
  lemma ConfirmsSince(e: Env, m: Env, f: Env, reply: Reply, service: string, dt: DateTime, duration: int,
                      ics: Option<string>, o: Oracles)
    requires |e.session.history| <= |m.session.history|
    requires m.session.callerNumber == e.session.callerNumber
    requires m.session.escalationTriggered == e.session.escalationTriggered
    requires Confirms(m, f, reply, service, dt, duration, ics, o)
    ensures Confirms(e, f, reply, service, dt, duration, ics, o)
  {
    AppointmentSince(e, m, f);
  }

  /** An offered alternative leaves the slots as they were or moves them to
      it, and only it can be confirmed. */
  lemma SuggestedOutcome(e: Env, service: string, slot: DateTime, duration: int, ics: Option<string>, o: Oracles)
    ensures var (reply, f) := Suggested(e, service, slot, duration, ics, o);
            && Grows(e, f) && reply.Said?
            && (|| f.session.state == e.session.state
                || f.session.state == e.session.state["date" := Str(FormatDate(slot))]["time" := Str(FormatClock(slot))])
            && (Appointment(e, f).Some? ==> Confirms(e, f, reply, service, slot, duration, ics, o))
  {
    if StartsWith(Lower(NextAnswer(e.io)), "y") {
      SuggestionTaken(e, service, slot, duration, ics, o);
      SuggestionWritten(e, service, slot, duration, ics, o);
    } else {
      SuggestionRefused(e, service, slot, duration, ics, o);
    }
  }

  /** Date and time slots that do not parse escalate with `parse_error`
      (lines 179-180) and confirm nothing. */
  lemma BookedUnparsed(e: Env, service: string, cfg: AppConfig, o: Oracles)
    requires ParseLocalDateTime(SlotText(e.session.state, "date"), SlotText(e.session.state, "time")).None?
    ensures var (reply, f) := Booked(e, service, cfg, o);
            && Grows(e, f) && reply == Said(EscalationMessage()) && f.session.escalationTriggered
            && f.session.state == e.session.state && Appointment(e, f).None?
  {
  }

  /** As written, a configuration without a `calendar` entry makes line 191
      raise `KeyError` once the slots parse: the call ends without a reply. */
  lemma BookedWithoutCalendar(e: Env, service: string, cfg: AppConfig, o: Oracles)
    requires ParseLocalDateTime(SlotText(e.session.state, "date"), SlotText(e.session.state, "time")).Some?
    requires cfg.calendar.None?
    ensures var (reply, f) := Booked(e, service, cfg, o);
            && reply == Raised("KeyError") && Grows(e, f) && Appointment(e, f).None?
  {
  }

  /** A free slot is written as asked: the appointment confirmed is the
      instant the slots denote, or the call escalates with nothing confirmed. */
  lemma BookedFree(e: Env, service: string, cfg: AppConfig, o: Oracles)
    requires ParseLocalDateTime(SlotText(e.session.state, "date"), SlotText(e.session.state, "time")).Some?
    requires cfg.calendar.Some?
    requires var desired := ParseLocalDateTime(SlotText(e.session.state, "date"), SlotText(e.session.state, "time")).value;
             !Truthy(o.hasConflict(desired, ServiceDuration(cfg, service), cfg.calendar.value.icsPath))
    ensures var (reply, f) := Booked(e, service, cfg, o);
            var desired := ParseLocalDateTime(SlotText(e.session.state, "date"), SlotText(e.session.state, "time")).value;
            var duration := ServiceDuration(cfg, service);
            var ics := cfg.calendar.value.icsPath;
            && Grows(e, f) && reply.Said?
            && f.session.state == e.session.state["duration_minutes" := Int(duration)]
            && (AddedEvent(o, service, e.session.callerNumber, desired, duration, ics).None? ==>
                  Confirms(e, f, reply, service, desired, duration, ics, o))
            && (AddedEvent(o, service, e.session.callerNumber, desired, duration, ics).Some? ==>
                  reply == Said(EscalationMessage()) && f.session.escalationTriggered && Appointment(e, f).None?)
  {
    var desired := ParseLocalDateTime(SlotText(e.session.state, "date"), SlotText(e.session.state, "time")).value;
    var duration := ServiceDuration(cfg, service);
    var ics := cfg.calendar.value.icsPath;
    var e1 := Updated(e, "duration_minutes", Int(duration));
    FinalizedOutcome(e1, service, desired, duration, ics, o);
    assert SlotText(e1.session.state, "date") == SlotText(e.session.state, "date");
    assert SlotText(e1.session.state, "time") == SlotText(e.session.state, "time");
    AppointmentFrom(e, e1, Booked(e, service, cfg, o).1);
  }

  lemma BookedConflicting(e: Env, service: string, cfg: AppConfig, o: Oracles)
    requires ParseLocalDateTime(SlotText(e.session.state, "date"), SlotText(e.session.state, "time")).Some?
    requires cfg.calendar.Some?
    requires var desired := ParseLocalDateTime(SlotText(e.session.state, "date"), SlotText(e.session.state, "time")).value;
             Truthy(o.hasConflict(desired, ServiceDuration(cfg, service), cfg.calendar.value.icsPath))
    ensures var desired := ParseLocalDateTime(SlotText(e.session.state, "date"), SlotText(e.session.state, "time")).value;
            var duration := ServiceDuration(cfg, service);
            var ics := cfg.calendar.value.icsPath;
            Booked(e, service, cfg, o)
            == Conflicted(Updated(e, "duration_minutes", Int(duration)), service, desired, duration, ics,
                          o.hasConflict(desired, duration, ics), IntervalMinutes(cfg), o)
  {
  }

  /** A conflicting slot escalates, or only the alternative the caller took
      can be confirmed; the slots keep the duration and change at most to that
      alternative. */
  lemma BookedConflictOutcome(e: Env, service: string, cfg: AppConfig, o: Oracles)
    requires ParseLocalDateTime(SlotText(e.session.state, "date"), SlotText(e.session.state, "time")).Some?
    requires cfg.calendar.Some?
    requires var desired := ParseLocalDateTime(SlotText(e.session.state, "date"), SlotText(e.session.state, "time")).value;
             Truthy(o.hasConflict(desired, ServiceDuration(cfg, service), cfg.calendar.value.icsPath))
    ensures var (reply, f) := Booked(e, service, cfg, o);
            var duration := ServiceDuration(cfg, service);
            var sized := e.session.state["duration_minutes" := Int(duration)];
            && Grows(e, f) && reply.Said?
            && (|| f.session.state == sized
                || exists slot: DateTime {:trigger FormatDate(slot)} ::
                     f.session.state == sized["date" := Str(FormatDate(slot))]["time" := Str(FormatClock(slot))])
            && (Appointment(e, f).Some? ==>
                  Confirms(e, f, reply, service, Appointment(e, f).value.1, duration, cfg.calendar.value.icsPath, o))
  {
    var desired := ParseLocalDateTime(SlotText(e.session.state, "date"), SlotText(e.session.state, "time")).value;
    var duration := ServiceDuration(cfg, service);
    var ics := cfg.calendar.value.icsPath;
    var conflicts := o.hasConflict(desired, duration, ics);
    var e1 := Updated(e, "duration_minutes", Int(duration));
    var interval := IntervalMinutes(cfg);
    BookedConflicting(e, service, cfg, o);
    var f := Conflicted(e1, service, desired, duration, ics, conflicts, interval, o).1;
    AppointmentFrom(e, e1, f);
    match o.suggestNextSlot(desired, duration, ics, interval)
    case None =>
      ConflictedNoAlternative(e1, service, desired, duration, ics, conflicts, interval, o);
    case Some(slot) =>
      ConflictedAlternative(e1, service, desired, duration, ics, conflicts, interval, o);
  }

  /** The affirmed booking (lines 175-240): with a calendar configured the
      caller always gets a reply, and an appointment is confirmed only for the
      service asked for, at the instant the slots denote when read back, once
      the calendar has taken it. */
  lemma BookedOutcome(e: Env, service: string, cfg: AppConfig, o: Oracles)
    ensures var (reply, f) := Booked(e, service, cfg, o);
            && Grows(e, f)
            && (cfg.calendar.Some? ==> reply.Said?)
            && (Appointment(e, f).Some? ==>
                  && cfg.calendar.Some? && Appointment(e, f).value.0 == service
                  && Confirms(e, f, reply, service, Appointment(e, f).value.1, ServiceDuration(cfg, service),
                              cfg.calendar.value.icsPath, o))
  {
    var parsed := ParseLocalDateTime(SlotText(e.session.state, "date"), SlotText(e.session.state, "time"));
    if parsed.None? {
      BookedUnparsed(e, service, cfg, o);
    } else if cfg.calendar.None? {
      BookedWithoutCalendar(e, service, cfg, o);
    } else if !Truthy(o.hasConflict(parsed.value, ServiceDuration(cfg, service), cfg.calendar.value.icsPath)) {
      BookedFree(e, service, cfg, o);
    } else {
      BookedConflictOutcome(e, service, cfg, o);
    }
  }

  /** What the booking step keeps of the slots: the service text, and every
      slot that was filled stays filled. */
  predicate KeepsSlots(s: map<string, Value>, t: map<string, Value>) {
    && SlotText(t, "service") == SlotText(s, "service")
    && (Filled(s, "service") ==> Filled(t, "service"))
    && (Filled(s, "date") ==> Filled(t, "date"))
    && (Filled(s, "time") ==> Filled(t, "time"))
  }

  lemma KeepsSlotsSized(s: map<string, Value>, duration: int)
    ensures KeepsSlots(s, s["duration_minutes" := Int(duration)])
  {
  }

  lemma KeepsSlotsMoved(s: map<string, Value>, slot: DateTime)
    ensures KeepsSlots(s, s["date" := Str(FormatDate(slot))]["time" := Str(FormatClock(slot))])
  {
  }

  lemma MovedKeepsDuration(s: map<string, Value>, slot: DateTime)
    requires "duration_minutes" in s
    ensures var t := s["date" := Str(FormatDate(slot))]["time" := Str(FormatClock(slot))];
            "duration_minutes" in t && t["duration_minutes"] == s["duration_minutes"]
  {
  }

  lemma KeepsSlotsTrans(s: map<string, Value>, t: map<string, Value>, u: map<string, Value>)
    requires KeepsSlots(s, t) && KeepsSlots(t, u)
    ensures KeepsSlots(s, u)
  {
  }

  /** The affirmed booking keeps the service text and every filled slot. */
  lemma BookedSlots(e: Env, service: string, cfg: AppConfig, o: Oracles)
    ensures KeepsSlots(e.session.state, Booked(e, service, cfg, o).1.session.state)
  {
    var parsed := ParseLocalDateTime(SlotText(e.session.state, "date"), SlotText(e.session.state, "time"));
    var sized := e.session.state["duration_minutes" := Int(ServiceDuration(cfg, service))];
    if parsed.None? {
      BookedUnparsed(e, service, cfg, o);
    } else {
      KeepsSlotsSized(e.session.state, ServiceDuration(cfg, service));
      if cfg.calendar.None? {
      } else if !Truthy(o.hasConflict(parsed.value, ServiceDuration(cfg, service), cfg.calendar.value.icsPath)) {
        BookedFree(e, service, cfg, o);
      } else {
        BookedConflictKeepsSlots(e, service, cfg, o);
      }
    }
  }

  lemma BookedConflictKeepsSlots(e: Env, service: string, cfg: AppConfig, o: Oracles)
    requires ParseLocalDateTime(SlotText(e.session.state, "date"), SlotText(e.session.state, "time")).Some?
    requires cfg.calendar.Some?
    requires var desired := ParseLocalDateTime(SlotText(e.session.state, "date"), SlotText(e.session.state, "time")).value;
             Truthy(o.hasConflict(desired, ServiceDuration(cfg, service), cfg.calendar.value.icsPath))
    ensures KeepsSlots(e.session.state, Booked(e, service, cfg, o).1.session.state)
  {
    var sized := e.session.state["duration_minutes" := Int(ServiceDuration(cfg, service))];
    KeepsSlotsSized(e.session.state, ServiceDuration(cfg, service));
    BookedConflictOutcome(e, service, cfg, o);
    var f := Booked(e, service, cfg, o).1;
    if f.session.state != sized {
      var slot: DateTime :| f.session.state == sized["date" := Str(FormatDate(slot))]["time" := Str(FormatClock(slot))];
      KeepsSlotsMoved(sized, slot);
      KeepsSlotsTrans(e.session.state, sized, f.session.state);
    }
  }

  /** Once the slots parse, the service's duration is recorded (line 188)
      and stays recorded whatever follows. */
  lemma BookedRecordsDuration(e: Env, service: string, cfg: AppConfig, o: Oracles)
    requires ParseLocalDateTime(SlotText(e.session.state, "date"), SlotText(e.session.state, "time")).Some?
    ensures var f := Booked(e, service, cfg, o).1;
            && "duration_minutes" in f.session.state
            && f.session.state["duration_minutes"] == Int(ServiceDuration(cfg, service))
  {
    var parsed := ParseLocalDateTime(SlotText(e.session.state, "date"), SlotText(e.session.state, "time"));
    var sized := e.session.state["duration_minutes" := Int(ServiceDuration(cfg, service))];
    var f := Booked(e, service, cfg, o).1;
    if cfg.calendar.None? {
      assert f.session.state == sized;
    } else if !Truthy(o.hasConflict(parsed.value, ServiceDuration(cfg, service), cfg.calendar.value.icsPath)) {
      BookedFree(e, service, cfg, o);
    } else {
      BookedConflictOutcome(e, service, cfg, o);
      if f.session.state != sized {
        var slot: DateTime :| f.session.state == sized["date" := Str(FormatDate(slot))]["time" := Str(FormatClock(slot))];
        MovedKeepsDuration(sized, slot);
      }
    }
  }

  /** Past the usage limit (lines 142-145) the caller is told so and the call
      state is left as it was: no escalation is flagged. */
  lemma ConfirmedOverLimit(e: Env, cfg: AppConfig, o: Oracles)
    requires !o.canCallModel
    ensures var (reply, f) := Confirmed(e, cfg, o);
            && Grows(e, f) && reply == Said(EscalationMessage()) && f.session == e.session
            && Appointment(e, f).None?
  {
  }

  /** A failing model call (lines 167-170) escalates with the slots kept. */
  lemma ConfirmedModelError(e: Env, cfg: AppConfig, o: Oracles)
    requires o.canCallModel && o.confirm(ConfirmationText(e.session.state)).ApiError?
    ensures var (reply, f) := Confirmed(e, cfg, o);
            && Grows(e, f) && reply == Said(EscalationMessage()) && f.session.escalationTriggered
            && f.session.state == e.session.state && Appointment(e, f).None?
  {
  }

  /** A reply that does not affirm (lines 241-246) asks the caller to start
      again, with the slots and the escalation flag kept. */
  lemma ConfirmedRejected(e: Env, cfg: AppConfig, o: Oracles)
    requires o.canCallModel && o.confirm(ConfirmationText(e.session.state)).Answer?
    requires !Affirmed(Lower(Strip(o.confirm(ConfirmationText(e.session.state)).content)))
    ensures var (reply, f) := Confirmed(e, cfg, o);
            && Grows(e, f) && reply == Said(RetryMessage)
            && f.session.state == e.session.state
            && f.session.escalationTriggered == e.session.escalationTriggered
            && Appointment(e, f).None?
  {
  }

  lemma ConfirmedAffirmed(e: Env, cfg: AppConfig, o: Oracles)
    requires o.canCallModel && o.confirm(ConfirmationText(e.session.state)).Answer?
    requires Affirmed(Lower(Strip(o.confirm(ConfirmationText(e.session.state)).content)))
    ensures var ct := ConfirmationText(e.session.state);
            Confirmed(e, cfg, o)
            == Booked(ConfirmationNoted(e, ct, Lower(Strip(o.confirm(ct).content))), SlotText(e.session.state, "service"), cfg, o)
  {
  }

  /** Confirmation and booking (lines 136-246): with a calendar configured the
      caller always gets a reply, and an appointment is confirmed only after
      the model answered and the answer affirmed, for the service slot, at the
      instant the slots denote when read back. */
  lemma ConfirmedOutcome(e: Env, cfg: AppConfig, o: Oracles)
    ensures var (reply, f) := Confirmed(e, cfg, o);
            var ct := ConfirmationText(e.session.state);
            var service := SlotText(e.session.state, "service");
            && Grows(e, f)
            && (cfg.calendar.Some? ==> reply.Said?)
            && (Appointment(e, f).Some? ==>
                  && o.canCallModel && o.confirm(ct).Answer? && Affirmed(Lower(Strip(o.confirm(ct).content)))
                  && cfg.calendar.Some? && Appointment(e, f).value.0 == service
                  && Confirms(e, f, reply, service, Appointment(e, f).value.1, ServiceDuration(cfg, service),
                              cfg.calendar.value.icsPath, o))
  {
    var ct := ConfirmationText(e.session.state);
    if !o.canCallModel {
      ConfirmedOverLimit(e, cfg, o);
    } else if o.confirm(ct).ApiError? {
      ConfirmedModelError(e, cfg, o);
    } else if !Affirmed(Lower(Strip(o.confirm(ct).content))) {
      ConfirmedRejected(e, cfg, o);
    } else {
      ConfirmedBooking(e, cfg, o);
    }
  }

  lemma ConfirmedBooking(e: Env, cfg: AppConfig, o: Oracles)
    requires o.canCallModel && o.confirm(ConfirmationText(e.session.state)).Answer?
    requires Affirmed(Lower(Strip(o.confirm(ConfirmationText(e.session.state)).content)))
    ensures var (reply, f) := Confirmed(e, cfg, o);
            var service := SlotText(e.session.state, "service");
            && Grows(e, f)
            && (cfg.calendar.Some? ==> reply.Said?)
            && (Appointment(e, f).Some? ==>
                  && cfg.calendar.Some? && Appointment(e, f).value.0 == service
                  && Confirms(e, f, reply, service, Appointment(e, f).value.1, ServiceDuration(cfg, service),
                              cfg.calendar.value.icsPath, o))
  {
    var ct := ConfirmationText(e.session.state);
    var e1 := ConfirmationNoted(e, ct, Lower(Strip(o.confirm(ct).content)));
    var service := SlotText(e.session.state, "service");
    ConfirmedAffirmed(e, cfg, o);
    BookedOutcome(e1, service, cfg, o);
    var f := Booked(e1, service, cfg, o).1;
    if Appointment(e1, f).Some? {
      AppointmentSince(e, e1, f);
    }
    GrowsTrans(e, e1, f);
  }

  /** Confirmation and booking keep the service text and every filled slot. */
  lemma ConfirmedSlots(e: Env, cfg: AppConfig, o: Oracles)
    ensures KeepsSlots(e.session.state, Confirmed(e, cfg, o).1.session.state)
  {
    var ct := ConfirmationText(e.session.state);
    if !o.canCallModel {
      ConfirmedOverLimit(e, cfg, o);
    } else if o.confirm(ct).ApiError? {
      ConfirmedModelError(e, cfg, o);
    } else if !Affirmed(Lower(Strip(o.confirm(ct).content))) {
      ConfirmedRejected(e, cfg, o);
    } else {
      var e1 := ConfirmationNoted(e, ct, Lower(Strip(o.confirm(ct).content)));
      ConfirmedAffirmed(e, cfg, o);
      BookedSlots(e1, SlotText(e.session.state, "service"), cfg, o);
    }
  }

  /** Parts of the flow that confirm nothing compose into one that confirms
      nothing. */
  lemma UnbookedTrans(e: Env, m: Env, f: Env)
    requires Grows(e, m) && Grows(m, f)
    requires Appointment(e, m).None? && Appointment(m, f).None?
    ensures Appointment(e, f).None?
  {
    if |f.session.history| == |m.session.history| {
      assert f.session.history == m.session.history;
    }
  }

  /** One clarification attempt confirms nothing. */
  lemma AttemptUnbooked(slot: string, e: Env, accept: (string, string) -> Option<string>)
    requires IsSlotKey(slot)
    ensures Appointment(e, ClarifyAttempt(slot, e, accept)).None?
  {
  }

  /** The clarification loop for one slot confirms nothing. */
  lemma {:induction false} ClarifySlotUnbooked(slot: string, e: Env, attempts: int, maxAttempts: int,
                                               accept: (string, string) -> Option<string>)
    requires IsSlotKey(slot)
    ensures Appointment(e, ClarifySlot(slot, e, attempts, maxAttempts, accept).env).None?
    decreases maxAttempts - attempts
  {
    if !Filled(e.session.state, slot) && attempts < maxAttempts {
      var e1 := ClarifyAttempt(slot, e, accept);
      var f := ClarifySlot(slot, e1, attempts + 1, maxAttempts, accept).env;
      AttemptUnbooked(slot, e, accept);
      ClarifySlotUnbooked(slot, e1, attempts + 1, maxAttempts, accept);
      ClarifySlotGrows(slot, e1, attempts + 1, maxAttempts, accept);
      UnbookedTrans(e, e1, f);
    }
  }

  /** The clarification loops over slot keys only grow the call state and
      confirm nothing. */
  lemma {:induction false} ClarifyAllUnbooked(missing: seq<string>, e: Env, maxAttempts: int,
                                              accept: (string, string) -> Option<string>)
    requires forall i :: 0 <= i < |missing| ==> IsSlotKey(missing[i])
    ensures Grows(e, ClarifyAll(missing, e, maxAttempts, accept).env)
    ensures Appointment(e, ClarifyAll(missing, e, maxAttempts, accept).env).None?
    decreases |missing|
  {
    if missing != [] {
      var slot := missing[0];
      ClarifySlotGrows(slot, e, 0, maxAttempts, accept);
      ClarifySlotUnbooked(slot, e, 0, maxAttempts, accept);
      match ClarifySlot(slot, e, 0, maxAttempts, accept)
      case Stop(_, _) =>
      case Go(f) =>
        var g := ClarifyAll(missing[1..], f, maxAttempts, accept).env;
        ClarifyAllUnbooked(missing[1..], f, maxAttempts, accept);
        GrowsTrans(e, f, g);
        UnbookedTrans(e, f, g);
    }
  }

  /** A clarify step of `extract_and_prepare` only reads an answer, writes the
      slot and records it: it grows the call state, keeps the flag, and
      confirms nothing. */
  lemma ClarifyKeyUnbooked(slots: map<string, Value>, e: Env, key: string, title: bool)
    requires IsSlotKey(key)
    ensures var f := ClarifyKey(slots, e, key, title).1;
            && Grows(e, f) && f.session.escalationTriggered == e.session.escalationTriggered
            && Appointment(e, f).None?
  {
  }

  /** `extract_and_prepare` grows the call state, keeps the flag, and
      confirms nothing. */
  lemma PreparedUnbooked(input: string, cfg: AppConfig, e: Env)
    ensures var f := Prepared(input, cfg, e).1;
            && Grows(e, f) && f.session.escalationTriggered == e.session.escalationTriggered
            && Appointment(e, f).None?
  {
    var m := Merged(ExtractedSlots(input, ServiceNames(cfg)), e.session.state);
    var (s1, e1) := ClarifyKey(m, e, "service", true);
    var (s2, e2) := ClarifyKey(s1, e1, "date", false);
    var e3 := ClarifyKey(s2, e2, "time", false).1;
    ClarifyKeyUnbooked(m, e, "service", true);
    ClarifyKeyUnbooked(s1, e1, "date", false);
    ClarifyKeyUnbooked(s2, e2, "time", false);
    GrowsTrans(e, e1, e2);
    UnbookedTrans(e, e1, e2);
    GrowsTrans(e, e2, e3);
    UnbookedTrans(e, e2, e3);
  }

  /** A question or an unrecognised request is answered at once: no slot is
      touched, no answer is read, nothing is escalated or confirmed. */
  lemma InteractionNotBooking(userInput: string, cfg: AppConfig, o: Oracles, maxSlotAttempts: int, e: Env)
    requires ClassifyIntent(userInput) != Booking
    ensures var (reply, f) := Interaction(userInput, cfg, o, maxSlotAttempts, e);
            && Grows(e, f) && reply.Said?
            && f.session.state == e.session.state && f.io.idx == e.io.idx
            && f.session.escalationTriggered == e.session.escalationTriggered
            && Appointment(e, f).None?
  {
    var intent := ClassifyIntent(userInput);
    var e1 := Heard(e, userInput, intent);
    if intent == Pricing || intent == Information {
      InfoAnsweredQuiet(e1, userInput, cfg);
      GrowsTrans(e, e1, InfoAnswered(e1, userInput, cfg).1);
    } else {
      assert "fallback" != "booking_confirmed";
    }
  }

  /** A question gets one reply, one log entry and one history entry, and
      nothing else about the call changes. */
  lemma InfoAnsweredQuiet(e: Env, userInput: string, cfg: AppConfig)
    ensures var (reply, f) := InfoAnswered(e, userInput, cfg);
            && Grows(e, f) && reply.Said?
            && f.session.state == e.session.state && f.io == e.io
            && f.session.escalationTriggered == e.session.escalationTriggered
            && Appointment(e, f).None?
  {
    var step := InfoReply(userInput, cfg).0;
    assert step != "booking_confirmed";
  }

  /** Extraction and clarification only grow the call state; they go on
      with all three slots filled and the flag as it was, or escalate; either
      way they confirm nothing. */
  lemma ClarificationOutcome(userInput: string, cfg: AppConfig, maxSlotAttempts: int,
                             accept: (string, string) -> Option<string>, e: Env)
    ensures var r := Clarification(userInput, cfg, maxSlotAttempts, accept, e);
            && Grows(e, r.env)
            && (r.Go? ==> && Filled(r.env.session.state, "service") && Filled(r.env.session.state, "date")
                          && Filled(r.env.session.state, "time")
                          && r.env.session.escalationTriggered == e.session.escalationTriggered)
            && Appointment(e, r.env).None?
            && (r.Stop? ==> r.reply == Said(EscalationMessage()))
  {
    var e2 := Prepared(userInput, cfg, e).1;
    var r := ClarifyAll(MissingSlots(e2.session.state), e2, maxSlotAttempts, accept);
    PreparedUnbooked(userInput, cfg, e);
    ClarifyMissingOutcome(e2, maxSlotAttempts, accept);
    ClarifyAllUnbooked(MissingSlots(e2.session.state), e2, maxSlotAttempts, accept);
    GrowsTrans(e, e2, r.env);
    UnbookedTrans(e, e2, r.env);
  }

  lemma ClarifyMissingOutcome(e: Env, maxSlotAttempts: int, accept: (string, string) -> Option<string>)
    ensures var r := ClarifyAll(MissingSlots(e.session.state), e, maxSlotAttempts, accept);
            && (r.Go? ==> && Filled(r.env.session.state, "service") && Filled(r.env.session.state, "date")
                          && Filled(r.env.session.state, "time")
                          && r.env.session.escalationTriggered == e.session.escalationTriggered)
            && (r.Stop? ==> r.reply == Said(EscalationMessage()))
  {
    ClarifyAllFills(MissingSlots(e.session.state), e, maxSlotAttempts, accept);
  }

  /** A booking request ends in a confirmed appointment only for the service
      slot, with all three slots filled, at the instant the date and time
      slots denote when read back, once the calendar has taken it; with a
      calendar configured the caller always gets a reply. */
  lemma BookingFlowOutcome(userInput: string, cfg: AppConfig, o: Oracles, maxSlotAttempts: int,
                           accept: (string, string) -> Option<string>, e: Env)
    ensures var (reply, f) := BookingFlow(userInput, cfg, o, maxSlotAttempts, accept, e);
            && Grows(e, f)
            && (cfg.calendar.Some? ==> reply.Said?)
            && (Appointment(e, f).Some? ==>
                  var service := SlotText(f.session.state, "service");
                  && Filled(f.session.state, "service") && Filled(f.session.state, "date") && Filled(f.session.state, "time")
                  && cfg.calendar.Some? && Appointment(e, f).value.0 == service
                  && Confirms(e, f, reply, service, Appointment(e, f).value.1, ServiceDuration(cfg, service),
                              cfg.calendar.value.icsPath, o))
  {
    var r := Clarification(userInput, cfg, maxSlotAttempts, accept, e);
    ClarificationOutcome(userInput, cfg, maxSlotAttempts, accept, e);
    if r.Go? {
      assert BookingFlow(userInput, cfg, o, maxSlotAttempts, accept, e) == Confirmed(r.env, cfg, o);
      ConfirmedAfter(e, r.env, cfg, o);
    }
  }

  /** Confirmation after the slots are clarified, seen from the start of the
      interaction. */
  lemma ConfirmedAfter(e: Env, g: Env, cfg: AppConfig, o: Oracles)
    requires Grows(e, g) && g.session.escalationTriggered == e.session.escalationTriggered
    requires Appointment(e, g).None?
    requires Filled(g.session.state, "service") && Filled(g.session.state, "date") && Filled(g.session.state, "time")
    ensures var (reply, f) := Confirmed(g, cfg, o);
            && Grows(e, f)
            && (cfg.calendar.Some? ==> reply.Said?)
            && (Appointment(e, f).Some? ==>
                  var service := SlotText(f.session.state, "service");
                  && Filled(f.session.state, "service") && Filled(f.session.state, "date") && Filled(f.session.state, "time")
                  && cfg.calendar.Some? && Appointment(e, f).value.0 == service
                  && Confirms(e, f, reply, service, Appointment(e, f).value.1, ServiceDuration(cfg, service),
                              cfg.calendar.value.icsPath, o))
  {
    var (reply, f) := Confirmed(g, cfg, o);
    ConfirmedOutcome(g, cfg, o);
    ConfirmedSlots(g, cfg, o);
    GrowsTrans(e, g, f);
    if Appointment(g, f).Some? {
      AppointmentSince(e, g, f);
    } else {
      UnbookedTrans(e, g, f);
    }
  }

  /** `process_interaction` (lines 68-246), whatever the intent: the call
      state only grows; with a calendar configured the caller always gets a
      reply; and a confirmed appointment means a booking request whose slots
      are all filled and denote the instant the calendar took. */
  lemma InteractionOutcome(userInput: string, cfg: AppConfig, o: Oracles, maxSlotAttempts: int, e: Env)
    ensures var (reply, f) := Interaction(userInput, cfg, o, maxSlotAttempts, e);
            && Grows(e, f)
            && (cfg.calendar.Some? ==> reply.Said?)
            && (Appointment(e, f).Some? ==>
                  var service := SlotText(f.session.state, "service");
                  && ClassifyIntent(userInput) == Booking
                  && Filled(f.session.state, "service") && Filled(f.session.state, "date") && Filled(f.session.state, "time")
                  && cfg.calendar.Some? && Appointment(e, f).value.0 == service
                  && Confirms(e, f, reply, service, Appointment(e, f).value.1, ServiceDuration(cfg, service),
                              cfg.calendar.value.icsPath, o))
  {
    if ClassifyIntent(userInput) == Booking {
      var e1 := Heard(e, userInput, Booking);
      BookingFlowOutcome(userInput, cfg, o, maxSlotAttempts, Accepted, e1);
      AppointmentFrom(e, e1, BookingFlow(userInput, cfg, o, maxSlotAttempts, Accepted, e1).1);
    } else {
      InteractionNotBooking(userInput, cfg, o, maxSlotAttempts, e);
    }
  }

  /** As written, the module binds `config` to the environment dictionary,
      which has no `calendar` key: a confirmed booking whose slots parse
      raises `KeyError` at line 191 instead of answering the caller. */
  lemma EnvConfigBookingRaises(e: Env, o: Oracles)
    requires o.canCallModel && o.confirm(ConfirmationText(e.session.state)).Answer?
    requires Affirmed(Lower(Strip(o.confirm(ConfirmationText(e.session.state)).content)))
    requires ParseLocalDateTime(SlotText(e.session.state, "date"), SlotText(e.session.state, "time")).Some?
    ensures Confirmed(e, EnvConfig(), o).0 == Raised("KeyError")
  {
    var ct := ConfirmationText(e.session.state);
    var e1 := ConfirmationNoted(e, ct, Lower(Strip(o.confirm(ct).content)));
    ConfirmedAffirmed(e, EnvConfig(), o);
    BookedWithoutCalendar(e1, SlotText(e.session.state, "service"), EnvConfig(), o);
  }

  /** With the validated application configuration in place of the
      environment dictionary, every interaction answers the caller, given
      that `can_call_model`, `has_conflict` and `suggest_next_slot` return
      (the oracles of this model cannot raise). */
  lemma ValidatedConfigAlwaysReplies(raw: ConfigSchema.RawRoot, userInput: string, o: Oracles,
                                     maxSlotAttempts: int, e: Env)
    requires ConfigSchema.ValidateRoot(raw).Ok?
    ensures Interaction(userInput, FromRoot(ConfigSchema.ValidateRoot(raw).value), o, maxSlotAttempts, e).0.Said?
  {
    InteractionOutcome(userInput, FromRoot(ConfigSchema.ValidateRoot(raw).value), o, maxSlotAttempts, e);
  }

  // ------------------------------------------------------ the imperative flow

  /** The `found` list grows by one service at a time. */
  lemma {:induction false} PricedLinesSnoc(lowered: string, services: seq<ServiceEntry>, s: ServiceEntry)
    ensures PricedLines(lowered, services + [s])
            == PricedLines(lowered, services)
               + (if Contains(lowered, Lower(s.name)) then [s.name + ": " + PriceText(s.price)] else [])
    decreases |services|
  {
    if services != [] {
      assert (services + [s])[1..] == services[1..] + [s];
      PricedLinesSnoc(lowered, services[1..], s);
    } else {
      assert PricedLines(lowered, []) == [];
      assert ([] + [s])[1..] == [];
    }
  }

  /** The loop of `handle_info_intent` that collects the `found` lines:
      exactly the lines of the services named in `lowered`, in order. */
  method FindPriced(lowered: string, services: seq<ServiceEntry>) returns (found: seq<string>)
    ensures found == PricedLines(lowered, services)
  {
    found := [];
    for i := 0 to |services|
      invariant found == PricedLines(lowered, services[..i])
    {
      assert services[..i + 1] == services[..i] + [services[i]];
      PricedLinesSnoc(lowered, services[..i], services[i]);
      if Contains(lowered, Lower(services[i].name)) {
        found := found + [services[i].name + ": " + PriceText(services[i].price)];
      }
    }
    assert services[..|services|] == services;
  }

  /** `handle_info_intent(user_input, session)`: the reply is logged, then
      recorded. */
  method HandleInfoIntent(userInput: string, cfg: AppConfig, session: CallSession, io: ScriptedAdapter, log: EventLog)
    returns (reply: string)
    modifies session, log
    ensures (Said(reply), Snap(session, io, log)) == InfoAnswered(old(Snap(session, io, log)), userInput, cfg)
  {
    var lowered := Lower(userInput);
    var step: string;
    if AsksHours(lowered) {
      var hours := cfg.hours.GetOr(HoursEntry(None, None));
      reply := "We are open from " + hours.open.GetOr("09:00") + " to " + hours.close.GetOr("17:00") + ".";
      step := "info_response";
    } else if Contains(lowered, "price") || Contains(lowered, "cost") {
      var services := Services(cfg);
      var found := FindPriced(lowered, services);
      if found != [] {
        reply := "Pricing: " + JoinWith(found, "; ");
      } else {
        reply := "Which service " + "are you asking " + "about? Options: " + JoinWith(NamesOf(services), ", ");
      }
      step := "pricing_response";
    } else {
      reply := Fallback;
      step := "fallback_info";
    }
    assert (step, reply) == InfoReply(userInput, cfg);
    log.LogEvent(session.callId, step, Null, Str(reply), "ok", None);
    session.AddHistory(step, Null, Str(reply), None);
  }

  /** The question `collect` is given for a slot (lines 105, 112, 123). */
  function SlotQuestion(slot: string, serviceNames: seq<string>): string {
    if slot == "service" then "Which service " + "would you like " + "to book? " + "Options: " + JoinWith(serviceNames, ", ") + ": "
    else if slot == "date" then "What date would " + "you like? " + "(YYYY-MM-DD): "
    else "What time works " + "for you? " + "(HH:MM 24h): "
  }

  /** The `while not session.state.get(slot_name)` loop (lines 98-133): true
      when it escalated. */
  method ClarifySlotLoop(slot: string, maxSlotAttempts: int, serviceNames: seq<string>,
                         session: CallSession, io: ScriptedAdapter, log: EventLog)
    returns (stopped: bool)
    modifies session, io, log
    ensures var r := ClarifySlot(slot, old(Snap(session, io, log)), 0, maxSlotAttempts, Accepted);
            stopped == r.Stop? && Snap(session, io, log) == r.env
  {
    var attempts := 0;
    while !(slot in session.state && Truthy(session.state[slot]))
      invariant ClarifySlot(slot, Snap(session, io, log), attempts, maxSlotAttempts, Accepted)
                == ClarifySlot(slot, old(Snap(session, io, log)), 0, maxSlotAttempts, Accepted)
      decreases maxSlotAttempts - attempts
    {
      if attempts >= maxSlotAttempts {
        io.Prompt(EscalationMessage());
        MarkAndLog(session, log, "failed_clarify_" + slot, None);
        return true;
      }
      AskSlot(slot, serviceNames, session, io, log);
      attempts := attempts + 1;
    }
    return false;
  }

  /** One pass of the loop body (lines 104-132): ask, then store a valid
      answer or say why it was refused. */
  method AskSlot(slot: string, serviceNames: seq<string>, session: CallSession, io: ScriptedAdapter, log: EventLog)
    modifies session, io, log
    ensures Snap(session, io, log) == ClarifyAttempt(slot, old(Snap(session, io, log)), Accepted)
  {
    var answer := io.Collect(SlotQuestion(slot, serviceNames));
    if answer != "" {
      var value := Accepted(slot, answer);
      if value.Some? {
        session.UpdateSlot(slot, Str(value.value));
        session.AddHistory("clarified_" + slot, Str(answer), Null, None);
        log.LogEvent(session.callId, "clarified_" + slot, Str(answer), Null, "ok", None);
      } else {
        io.Prompt(InvalidMessage(slot));
        session.AddHistory(slot + "_invalid", Str(answer), Null, None);
        log.LogEvent(session.callId, slot + "_invalid", Str(answer), Null, "ok", None);
      }
    }
  }

  /** The `for slot_name in missing` loop (lines 96-133): true when it
      escalated. */
  method ClarifyAllLoop(missing: seq<string>, maxSlotAttempts: int, serviceNames: seq<string>,
                        session: CallSession, io: ScriptedAdapter, log: EventLog)
    returns (stopped: bool)
    modifies session, io, log
    ensures var r := ClarifyAll(missing, old(Snap(session, io, log)), maxSlotAttempts, Accepted);
            stopped == r.Stop? && Snap(session, io, log) == r.env
  {
    for i := 0 to |missing|
      invariant ClarifyAll(missing[i..], Snap(session, io, log), maxSlotAttempts, Accepted)
                == ClarifyAll(missing, old(Snap(session, io, log)), maxSlotAttempts, Accepted)
    {
      assert missing[i..][1..] == missing[i + 1..];
      stopped := ClarifySlotLoop(missing[i], maxSlotAttempts, serviceNames, session, io, log);
      if stopped {
        return;
      }
    }
    assert missing[|missing|..] == [];
    return false;
  }

  /** The duration loop (lines 183-187): the first configured service with
      that name, ignoring case, decides. */
  method DurationFor(cfg: AppConfig, service: string) returns (duration: int)
    ensures duration == ServiceDuration(cfg, service)
  {
    var services := Services(cfg);
    duration := 30;
    var k := 0;
    while k < |services|
      invariant 0 <= k <= |services|
      invariant FirstNamed(services, service, 0) == FirstNamed(services, service, k)
    {
      if Lower(services[k].name) == Lower(service) {
        duration := services[k].durationMinutes.GetOr(30);
        return;
      }
      k := k + 1;
    }
  }

  /** Writing the appointment and confirming it (lines 227-240). */
  method FinalizeBooking(service: string, dt: DateTime, duration: int, ics: Option<string>, o: Oracles,
                         session: CallSession, io: ScriptedAdapter, log: EventLog)
    returns (reply: Reply)
    modifies session, io, log
    ensures (reply, Snap(session, io, log)) == Finalized(old(Snap(session, io, log)), service, dt, duration, ics, o)
  {
    var failure := AddedEvent(o, service, session.callerNumber, dt, duration, ics);
    if failure.Some? {
      io.Prompt(FinalizeErrorPrefix + EscalationMessage());
      MarkAndLog(session, log, "finalization_error", Some(map["error" := Str(failure.value)]));
      return Said(EscalationMessage());
    }
    var confirmation := BookedMessage(service, session.state);
    io.Prompt(confirmation);
    session.AddHistory("booking_confirmed", Null, Object(map["service" := Str(service), "datetime" := When(dt)]), None);
    log.LogEvent(session.callId, "booking_confirmed", Null, Object(session.state), "ok", None);
    return Said(confirmation);
  }

  /** The conflict branch (lines 192-225): say so, then offer the next free
      slot or escalate when there is none. */
  method HandleConflict(service: string, desired: DateTime, duration: int, ics: Option<string>, conflicts: Value,
                        interval: int, o: Oracles, session: CallSession, io: ScriptedAdapter, log: EventLog)
    returns (reply: Reply)
    modifies session, io, log
    ensures (reply, Snap(session, io, log))
            == Conflicted(old(Snap(session, io, log)), service, desired, duration, ics, conflicts, interval, o)
  {
    var extra := Some(map["conflicts" := conflicts]);
    io.Prompt(ConflictMessage);
    session.AddHistory("conflict_detected", Null, Null, extra);
    log.LogEvent(session.callId, "conflict_detected", Null, Null, "ok", extra);
    var suggestion := o.suggestNextSlot(desired, duration, ics, interval);
    if suggestion.None? {
      io.Prompt(EscalationMessage());
      MarkAndLog(session, log, "no_alternatives", None);
      return Said(EscalationMessage());
    }
    reply := OfferSuggestion(service, suggestion.value, duration, ics, o, session, io, log);
  }

  /** The offered alternative (lines 208-225). */
  method OfferSuggestion(service: string, slot: DateTime, duration: int, ics: Option<string>, o: Oracles,
                         session: CallSession, io: ScriptedAdapter, log: EventLog)
    returns (reply: Reply)
    modifies session, io, log
    ensures (reply, Snap(session, io, log)) == Suggested(old(Snap(session, io, log)), service, slot, duration, ics, o)
  {
    var readable := FormatDateTime(slot);
    io.Prompt(SuggestionPrompt(slot));
    ghost var prompted := Snap(session, io, log);
    var accept := io.Collect("> ");
    accept := Lower(accept);
    ghost var collected := Snap(session, io, log);
    assert collected == Collected(prompted);
    if !StartsWith(accept, "y") {
      io.Prompt(EscalationMessage());
      MarkAndLog(session, log, "user_rejected_suggestion", None);
      return Said(EscalationMessage());
    }
    session.UpdateSlot("date", Str(FormatDate(slot)));
    session.UpdateSlot("time", Str(FormatClock(slot)));
    session.AddHistory("accepted_suggestion", Str(readable), Null, None);
    log.LogEvent(session.callId, "accepted_suggestion", Str(readable), Null, "ok", None);
    assert Snap(session, io, log) == TookSuggestion(collected, slot);
    reply := FinalizeBooking(service, slot, duration, ics, o, session, io, log);
  }

  /** The affirmed booking (lines 175-240). */
  method BookAppointment(service: string, cfg: AppConfig, o: Oracles,
                         session: CallSession, io: ScriptedAdapter, log: EventLog)
    returns (reply: Reply)
    modifies session, io, log
    ensures (reply, Snap(session, io, log)) == Booked(old(Snap(session, io, log)), service, cfg, o)
  {
    var parsed := ParseLocalDateTime(SlotText(session.state, "date"), SlotText(session.state, "time"));
    if parsed.None? {
      io.Prompt(EscalationMessage());
      MarkAndLog(session, log, "parse_error", None);
      return Said(EscalationMessage());
    }
    var desired := parsed.value;
    var duration := DurationFor(cfg, service);
    session.UpdateSlot("duration_minutes", Int(duration));
    if cfg.calendar.None? {
      return Raised("KeyError");
    }
    var ics := cfg.calendar.value.icsPath;
    var conflicts := o.hasConflict(desired, duration, ics);
    if Truthy(conflicts) {
      reply := HandleConflict(service, desired, duration, ics, conflicts, IntervalMinutes(cfg), o, session, io, log);
    } else {
      reply := FinalizeBooking(service, desired, duration, ics, o, session, io, log);
    }
  }

  /** Confirmation through the language model and its interpretation
      (lines 135-173, 241-246). */
  method ConfirmBooking(cfg: AppConfig, o: Oracles, session: CallSession, io: ScriptedAdapter, log: EventLog)
    returns (reply: Reply)
    modifies session, io, log
    ensures (reply, Snap(session, io, log)) == Confirmed(old(Snap(session, io, log)), cfg, o)
  {
    var service := SlotText(session.state, "service");
    var confirmationText := ConfirmationText(session.state);
    if !o.canCallModel {
      io.Prompt(UsageLimitPrefix + EscalationMessage());
      log.LogEvent(session.callId, "usage_limit_hit", Null, Null, "ok", None);
      return Said(EscalationMessage());
    }
    match o.confirm(confirmationText)
    case ApiError(message) =>
      reply := EscalateWith(ConfirmErrorPrefix + EscalationMessage(), "confirmation_llm_error",
                            Some(map["error" := Str(message)]), session, io, log);
    case Answer(content) =>
      var answer := Lower(Strip(content));
      NoteConfirmation(confirmationText, answer, session, io, log);
      reply := InterpretConfirmation(service, answer, cfg, o, session, io, log);
  }

  /** The model's reply, logged and recorded (lines 164-165). */
  method NoteConfirmation(confirmationText: string, answer: string,
                          session: CallSession, io: ScriptedAdapter, log: EventLog)
    modifies session, log
    ensures Snap(session, io, log) == ConfirmationNoted(old(Snap(session, io, log)), confirmationText, answer)
  {
    log.LogEvent(session.callId, "confirmation_response", Str(confirmationText), Str(answer), "ok", None);
    session.AddHistory("confirmation_response", Str(confirmationText), Str(answer), None);
  }

  /** Tell the caller `message`, then `mark_and_log(session, reason, extra)`;
      the reply is the escalation message. */
  method EscalateWith(message: string, reason: string, extra: Option<map<string, Value>>,
                      session: CallSession, io: ScriptedAdapter, log: EventLog)
    returns (reply: Reply)
    modifies session, io, log
    ensures reply == Said(EscalationMessage())
    ensures Snap(session, io, log) == Escalated(Prompted(old(Snap(session, io, log)), message), reason, extra)
  {
    io.Prompt(message);
    MarkAndLog(session, log, reason, extra);
    reply := Said(EscalationMessage());
  }

  /** Acting on the model's normalised reply (lines 173-246). */
  method InterpretConfirmation(service: string, answer: string, cfg: AppConfig, o: Oracles,
                               session: CallSession, io: ScriptedAdapter, log: EventLog)
    returns (reply: Reply)
    modifies session, io, log
    ensures (reply, Snap(session, io, log)) == Interpreted(old(Snap(session, io, log)), service, answer, cfg, o)
  {
    if Affirmed(answer) {
      reply := BookAppointment(service, cfg, o, session, io, log);
    } else {
      io.Prompt(RetryMessage);
      session.AddHistory("confirmation_rejected", Null, Str(answer), None);
      log.LogEvent(session.callId, "confirmation_rejected", Null, Str(answer), "ok", None);
      reply := Said(RetryMessage);
    }
  }

  /** A booking request (lines 91-246): extraction, clarification, then
      confirmation and booking. */
  method HandleBooking(userInput: string, cfg: AppConfig, o: Oracles, maxSlotAttempts: int,
                       session: CallSession, io: ScriptedAdapter, log: EventLog)
    returns (reply: Reply)
    modifies session, io, log
    ensures (reply, Snap(session, io, log)) == BookingFlow(userInput, cfg, o, maxSlotAttempts, Accepted, old(Snap(session, io, log)))
  {
    var slots := ExtractAndPrepare(userInput, cfg, session, io, log);
    var missing := MissingSlots(session.state);
    ghost var prepared := Snap(session, io, log);
    var stopped := ClarifyAllLoop(missing, maxSlotAttempts, ServiceNames(cfg), session, io, log);
    if stopped {
      ClarifyMissingOutcome(prepared, maxSlotAttempts, Accepted);
      return Said(EscalationMessage());
    }
    reply := ConfirmBooking(cfg, o, session, io, log);
  }

  /** `process_interaction(user_input, session, io_adapter, max_slot_attempts)`;
      a `Raised` reply is the exception it lets escape. */
  method ProcessInteraction(userInput: string, cfg: AppConfig, o: Oracles, maxSlotAttempts: int,
                            session: CallSession, io: ScriptedAdapter, log: EventLog)
    returns (reply: Reply)
    modifies session, io, log
    ensures (reply, Snap(session, io, log)) == Interaction(userInput, cfg, o, maxSlotAttempts, old(Snap(session, io, log)))
  {
    var callId := session.callId;
    log.LogEvent(callId, "user_input", Str(userInput), Null, "ok", None);
    var intent := ClassifyIntent(userInput);
    log.LogEvent(callId, "intent_classified", Str(userInput), Str(intent.Name()), "ok", None);
    if intent == Pricing || intent == Information {
      var text := HandleInfoIntent(userInput, cfg, session, io, log);
      return Said(text);
    }
    if intent != Booking {
      io.Prompt(Fallback);
      log.LogEvent(callId, "fallback", Null, Str(Fallback), "ok", None);
      session.AddHistory("fallback", Null, Str(Fallback), None);
      return Said(Fallback);
    }
    reply := HandleBooking(userInput, cfg, o, maxSlotAttempts, session, io, log);
  }
}
