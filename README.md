# Mechanic shop receptionist: the call-handling core in Dafny

This project models the deterministic core of a mechanic shop's AI
receptionist (`mechanic_ai_assistant`). The core covers one call turn,
`process_interaction`, which does the following:

- classifies the caller's words as a booking, pricing, information or
  general request, and answers pricing and information questions from the
  shop configuration;
- for a booking, extracts the service, date and time from the words and
  asks for any that are missing, with a limited number of attempts per
  slot, escalating to a human when the attempts run out;
- has the language model confirm the paraphrased booking, interprets its
  reply, parses the requested date and time, checks the calendar for a
  conflict, offers the next free slot, and writes and confirms the
  appointment.

The supporting pieces are modelled too: the session record (`CallSession`),
the structured event log, escalation, the deterministic slot extractor, the
questionnaire-style booking handler and the validation of the shop's
configuration file.

The model is organised as follows:

- **One module per source file.** `Assistant`, `SlotExtractor`, `Session`,
  `Escalation`, `StructuredLogger`, `BookingHandler` and `ConfigSchema`.
- **Shared support modules.** `Text` holds the Python string operations the
  code relies on (`str.strip`, `lower`, `title`, `split`, `int()`). `DateTimes`
  holds `datetime.strptime` and `strftime` for the formats used and the
  order of instants. `Values` holds the JSON-like values stored in the
  session and the log. `Settings` holds the configuration dictionary read
  with `config.get`. `Conversation` holds the call state.
- **Objects updated in place are classes.** The session (`CallSession`),
  the event log (`EventLog`) and the scripted I/O adapter
  (`ScriptedAdapter`, the queue of canned answers that the source's
  non-model tests use) are classes whose methods update their fields.
- **Each operation that changes state is a method** on those objects, for
  example `Assistant.ProcessInteraction`, `Assistant.ClarifySlotLoop` and
  `SlotExtractor.ExtractAndPrepare`. Each method is proved to move the call
  state `Conversation.Env` (session dictionary, adapter, log) exactly as a
  value-level function says, for example `Assistant.Interaction` or
  `Assistant.ClarifySlot`.
- **The source's promises are proved as lemmas** about those functions.
  The main properties are:
  - the log and history only grow, and the escalation flag is never
    cleared;
  - every missing slot is filled or the call is escalated;
  - each clarification loop asks at most its budget of questions;
  - a confirmed appointment was written to the calendar, its slots parse
    back to the booked instant, and the reply is the confirmation message;
  - non-booking requests never book anything;
  - with a validated configuration every turn yields a spoken reply, as
    long as the oracles return.

The following are parameters of the model:

- **The oracles** (`Assistant.Oracles`). These are external services whose
  code is not modelled: the language model's completion, the usage guard's
  `can_call_model`, the calendar's `has_conflict`, `suggest_next_slot` and
  `add_event_to_calendar`.
- **The call id.** `uuid.uuid4()` is replaced by a `generatedId` argument.
- **The initial log.** The log's file is replaced by the `Store` value it
  held.

The model follows the code as written. In four places the code evidently
departs from what it means to do; there a corrected member stands beside
the as-written one, with the intended property proved about it (see
"## Findings").

## Model

| member | source | states |
|---|---|---|
| Text.StripLeftBy | assistant/assistant.py:114 | the result is a suffix of the input, every character removed is in the strip set, and the first character kept is not |
| Text.StripRightBy | assistant/assistant.py:114 | the result is a prefix of the input, every character removed is in the strip set, and the last character kept is not |
| Text.StripBy | assistant/assistant.py:293 | the result is the input with a run of strip-set characters cut from each end, and neither its first nor its last character is in the set |
| Text.Strip | assistant/assistant.py:114 | `str.strip()` is the input with the leading and the trailing whitespace cut off, so it is a contiguous middle piece that neither begins nor ends with whitespace |
| Text.StripIdempotent | assistant/assistant.py:114 | stripping twice is the same as stripping once |
| Text.StripOfUnpadded | core/config_schema.py:15-17 | a string that neither begins nor ends with whitespace is left unchanged by `strip` |
| Text.StripBlank | core/config_schema.py:15 | a string made only of whitespace strips to the empty string, which is why a blank service name is refused |
| Text.StripSpaced | core/config_schema.py:17 | removing one space on each side of an unpadded name gives back the name |
| Text.StripByUnpadded | assistant/assistant.py:293 | stripping a string that is unpadded with respect to the strip set leaves it unchanged |
| Text.LowerIdempotent | assistant/assistant.py:39 | lower-casing twice is the same as lower-casing once |
| Text.Lower | assistant/assistant.py:39 | definition: `str.lower()` character by character (ASCII, see Left out); `LowerIdempotent` states its property |
| Text.Title | assistant/slot_extractor.py:45 | definition: `str.title()`, a letter at the start or after a non-letter upper-cased and every other letter lower-cased (ASCII, see Left out) |
| Text.Contains | assistant/assistant.py:252 | definition: `sub in s`, some index at which `sub` occurs in `s` |
| Text.StartsWith | assistant/assistant.py:212 | definition: `s.startswith(p)`, the first `len(p)` characters of `s` are `p` |
| Text.DigitChar | assistant/assistant.py:213 | the character written for a digit is a decimal digit whose value is that digit |
| Text.Pad2 | assistant/assistant.py:214 | the two-character zero-padded rendering of n < 100 consists of digits whose decimal value is n |
| Text.Pad4 | assistant/assistant.py:213 | the four-character zero-padded rendering of n < 10000 consists of digits whose decimal value is n |
| Text.Split | assistant/assistant.py:288 | `str.split(sep)` always returns at least one piece |
| Text.SplitCount | assistant/assistant.py:288-290 | the number of pieces is one more than the number of separators, so `len(parts) != 2` means "not exactly one colon" |
| Text.SplitPiecesFree | assistant/assistant.py:288 | no piece contains the separator |
| Text.SplitJoin | assistant/assistant.py:288 | joining the pieces with the separator gives back the input (the inverse of split) |
| Text.SplitWithoutSeparator | assistant/assistant.py:288 | a string without the separator splits into itself alone |
| Text.SplitAtFirst | assistant/assistant.py:288 | splitting `a + sep + b`, where `a` has no separator, gives `a` followed by the pieces of `b` |
| Text.SplitOnePiece | assistant/assistant.py:288-289 | `split` gives a single piece if and only if the separator does not occur |
| Text.PyIntPad2 | assistant/assistant.py:293-294 | `int()` of a zero-padded two-digit rendering gives back the number |
| Text.PyIntOfDigitRun | assistant/assistant.py:293 | `int()` of a run of decimal digits is its decimal value |
| Text.PyInt | assistant/assistant.py:293-294 | definition: `int()` of a string, whitespace around an optional sign and digits with single underscores, `None` where Python raises ValueError; `PyIntOfDigitRun` and `PyIntPad2` state what it reads |
| DateTimes.SkipSpaces | assistant/assistant.py:302 | the `\s+` run that a format space matches stays within the string and never moves backwards |
| DateTimes.MatchFormattedDate | assistant/assistant.py:213 | the `%Y-%m-%d` fields of strptime read back the year, month and day that strftime wrote for an instant |
| DateTimes.ParseFormattedDate | assistant/assistant.py:282 | a date that strftime wrote as `%Y-%m-%d` is accepted by strptime and denotes midnight of that day (round trip) |
| DateTimes.ParseFormattedClock | assistant/assistant.py:214 | a clock that strftime wrote as `%H:%M` parses back to that hour and minute (round trip) |
| DateTimes.ParseFormattedDateTime | assistant/assistant.py:209 | `"%Y-%m-%d %H:%M"` written by strftime parses back to the same instant (round trip) |
| DateTimes.ParseDate | assistant/assistant.py:282 | definition: `strptime(s, "%Y-%m-%d")`; `ParseFormattedDate` states that it reads back what `FormatDate` writes |
| DateTimes.ParseClock | assistant/assistant.py:302 | definition: the `%H:%M` half of `strptime`; `ParseFormattedClock` states that it reads back what `FormatClock` writes |
| DateTimes.ParseDateTime | assistant/assistant.py:302 | definition: `strptime(s, "%Y-%m-%d %H:%M")`; `ParseFormattedDateTime` and `ParseJoined` state its properties |
| DateTimes.FormatDate | assistant/assistant.py:213 | definition: `strftime("%Y-%m-%d")`, zero-padded to four and two digits |
| DateTimes.FormatClock | assistant/assistant.py:214 | definition: `strftime("%H:%M")`, zero-padded to two digits each |
| DateTimes.FormatDateTime | assistant/assistant.py:209 | definition: `strftime("%Y-%m-%d %H:%M")` |
| DateTimes.ParseJoined | assistant/assistant.py:302 | if the date parses as `%Y-%m-%d` and the clock as `%H:%M`, then `"date time"` parses as `"%Y-%m-%d %H:%M"` to their combination |
| DateTimes.MatchDateFieldsPrefix | assistant/assistant.py:302 | appending text that starts with a space does not change how the date fields of a valid date match |
| DateTimes.CharInSpaced | assistant/assistant.py:302 | appending text that starts with a space does not change a character-class test inside the date, nor one at its end that excludes the space |
| DateTimes.MatchYearSpaced | assistant/assistant.py:302 | the `%Y` match of a date is unchanged by appending text that starts with a space |
| DateTimes.MatchMonthSpaced | assistant/assistant.py:302 | the `%m` match is unchanged by appending text that starts with a space |
| DateTimes.MatchDaySpaced | assistant/assistant.py:302 | the `%d` match is unchanged by appending text that starts with a space |
| DateTimes.CharInShift | assistant/assistant.py:302 | a character-class test is the same after any prefix is put in front, at the shifted position |
| DateTimes.MatchHourShift | assistant/assistant.py:302 | the `%H` match of a clock is the same after any prefix, with its end shifted by the prefix length |
| DateTimes.MatchMinuteShift | assistant/assistant.py:302 | the `%M` match is the same after any prefix, with its end shifted by the prefix length |
| DateTimes.SkipOneSpace | assistant/assistant.py:302 | a single space before a non-space is skipped exactly |
| DateTimes.ClockRange | assistant/assistant.py:302 | a parsed `%H:%M` clock has hour 0-23 and minute 0-59 |
| DateTimes.ClockShifted | assistant/assistant.py:302 | a parsed clock, placed after any prefix, still matches hour, colon and minute and consumes the rest of the string |
| DateTimes.DaysBeforeYearStep | core/booking_handler.py:26-30 | the days before year y+1 are the days before y plus the length of y |
| DateTimes.DaysBeforeYearMonotone | core/booking_handler.py:26-30 | the days before a later year cover the whole of every earlier year |
| DateTimes.DaysBeforeMonthMonotone | core/booking_handler.py:26-30 | the days before a later month cover the whole of every earlier month of the same year |
| DateTimes.DaysBeforeDecember | core/booking_handler.py:26-30 | the months before December plus its 31 days are the whole year |
| DateTimes.DayOfYearBound | core/booking_handler.py:26-30 | the day of the year never exceeds the year's length |
| DateTimes.BeforeMinutes | core/booking_handler.py:30 | an instant before another has a smaller minute count |
| DateTimes.ToMinutesOrder | core/booking_handler.py:30 | comparing minute counts is comparing instants: earlier if and only if smaller, equal if and only if equal |
| DateTimes.ToMinutes | core/booking_handler.py:30 | definition: an instant as whole minutes since 0001-01-01 00:00; `ToMinutesOrder` states that it orders instants as Python compares them |
| StructuredLogger.NewEntry | utils/structured_logger.py:25-33 | the log entry carries the call id, step, input, output and outcome given, and `extra or {}` |
| StructuredLogger.LoadedCalls | utils/structured_logger.py:10-17 | a missing or undecodable log file gives no calls; a decoded file gives its `calls` list, or none when it has no `calls` key |
| StructuredLogger.EventLog.Open | utils/structured_logger.py:10-17 | the log opened from a file holds what `_load` reads from it |
| StructuredLogger.EventLog.LogEvent | utils/structured_logger.py:23-35 | `log_event` appends exactly one new entry and keeps every earlier one |
| StructuredLogger.RedactPhone | utils/structured_logger.py:37-40 | a number of at least four characters becomes `***-***-` followed by its last four characters; a shorter one is returned unchanged |
| StructuredLogger.RedactPhoneIdempotent | utils/structured_logger.py:37-40 | redacting a redacted number changes nothing |
| Session.NewHistoryEntry | assistant/session.py:21-28 | the history entry carries the step, input and output given, and `extra or {}` |
| Session.ChooseCallId | assistant/session.py:8 | `call_id or uuid4()`: a given non-empty id is kept, and a missing or empty one is replaced by the generated id |
| Session.NewSession | assistant/session.py:7-15 | a new session has no slots, no history and no escalation, and keeps the given caller number, mode and non-empty call id |
| Session.WithSlot | assistant/session.py:17-19 | `update_slot` sets that key, keeps every other key and its value, and changes nothing else in the session |
| Session.WithHistory | assistant/session.py:21-30 | `add_history` appends exactly one entry, keeps the earlier ones, and changes nothing else |
| Session.WithSlotOthers | assistant/session.py:17-19 | setting one slot does not change whether any other slot is filled |
| Session.CallSession.constructor | assistant/session.py:7-15 | a fresh session object holds exactly the new session record |
| Session.CallSession.ToDict | assistant/session.py:35-45 | `to_dict` reports the object's state, history, escalation flag and call id |
| Session.CallSession.UpdateSlot | assistant/session.py:17-19 | the object's record afterwards is `WithSlot` of the record before |
| Session.CallSession.AddHistory | assistant/session.py:21-30 | the object's record afterwards is `WithHistory` of the record before |
| IoAdapter.NextAnswer | test/test_non_llm_flow.py:32-40 | the next scripted answer while any remain, then the empty string |
| IoAdapter.AfterCollect | test/test_non_llm_flow.py:32-40 | `collect` moves to the next answer only while answers remain, and records no prompt |
| IoAdapter.AfterPrompt | test/test_non_llm_flow.py:42-44 | `prompt` appends the message to the prompts and does not consume an answer |
| IoAdapter.CollectInOrder | test/test_non_llm_flow.py:32-40 | after k calls of `collect` the next answer is the k-th one from now, the prompts are unchanged, and the position saturates at the end of the script |
| IoAdapter.ScriptedAdapter.constructor | test/test_non_llm_flow.py:27-30 | a new adapter starts at the first response with no prompts |
| IoAdapter.ScriptedAdapter.Collect | test/test_non_llm_flow.py:32-40 | returns `NextAnswer` of the state before and moves the state as `AfterCollect` says |
| IoAdapter.ScriptedAdapter.Prompt | test/test_non_llm_flow.py:42-44 | moves the state as `AfterPrompt` says |
| Escalation.EscalationPayload | assistant/escalation.py:13-15 | the payload is `{"reason": reason}` updated with `extra`: every extra key with its value, where an extra `reason` overrides the given one |
| Escalation.MarkedSession | assistant/escalation.py:12 | the escalation flag is set and everything else in the session is unchanged |
| Escalation.EscalationEntry | assistant/escalation.py:16 | the log entry is an `escalation` step of the session's call with no input or output and the payload as extra |
| Escalation.EscalatedEffect | assistant/escalation.py:8-16 | escalating sets the flag, keeps slots, history and adapter, and appends one `escalation` entry with the reason; a second escalation keeps the flag set |
| Escalation.MarkAndLog | assistant/escalation.py:8-16 | the session object afterwards is the marked session, and the log gains exactly the escalation entry |
| Escalation.EscalationMessage | assistant/escalation.py:5-6 | definition: the fixed hand-over message |
| Escalation.Escalated | assistant/escalation.py:8-16 | definition: `mark_and_log` on the call state; `EscalatedEffect` states its effect |
| ConfigSchema.Within | core/config_schema.py:43-47 | prefixing error locations keeps the number and the kind of each error |
| ConfigSchema.ValidateService | core/config_schema.py:8-17 | a service is accepted if and only if its name is present and not blank and its duration, when given, is positive; the stored name is stripped; the duration defaults to 30; a refusal reports at least one error |
| ConfigSchema.ValidateItems | core/config_schema.py:36-42 | an accepted list has as many entries as the input; a refused one reports at least one error |
| ConfigSchema.ValidItems | core/config_schema.py:36-42 | an accepted list is accepted item by item, and each entry is that item's validated value |
| ConfigSchema.ItemsAllValid | core/config_schema.py:36-42 | a list whose every item validates is accepted (the converse of ValidItems) |
| ConfigSchema.ValidateHours | core/config_schema.py:24-26 | the hours are accepted if and only if both times are present and match `^\d{2}:\d{2}$`, and are then kept as given |
| ConfigSchema.ValidateBookingSlots | core/config_schema.py:20-21 | the booking interval is accepted if and only if it is absent or positive, and defaults to 30 |
| ConfigSchema.ValidateCalendar | core/config_schema.py:29-30 | definition: `ics_path` is required; `RootFields` and `RootRejection` state what the root makes of it |
| ConfigSchema.Required | core/config_schema.py:39-41 | definition: a required nested model that is absent is the error `missing` at its key, and the errors of a present one are reported under its key |
| ConfigSchema.ValidateServices | core/config_schema.py:38-47 | definition: the service list is required and must not be empty, every item checked; `RootServices` and `AcceptedItems` state its properties |
| ConfigSchema.ValidateRoot | core/config_schema.py:36-47 | definition: `RootConfig`, every field checked and the errors collected; `AcceptedRoot`, `RootFields`, `RootDefaults` and `RootRejection` state its properties |
| ConfigSchema.AcceptedRoot | core/config_schema.py:36-47 | an accepted configuration has at least one service; every service has a non-empty stripped name and a positive duration; the interval is positive; both hours match the pattern |
| ConfigSchema.AcceptedItems | core/config_schema.py:8-17 | every service of an accepted list has a non-empty stripped name and a positive duration |
| ConfigSchema.RootFields | core/config_schema.py:36-42 | an accepted configuration has a positive interval and pattern-conforming hours |
| ConfigSchema.RootServices | core/config_schema.py:43-47 | an accepted configuration had a services list, which validated, and its validated services are that list and non-empty |
| ConfigSchema.RootDefaults | core/config_schema.py:37-39 | a missing shop name defaults to "Mechanic Shop", and a missing booking-slots section or interval defaults to 30 minutes |
| ConfigSchema.RootRejection | core/config_schema.py:36-47 | a refusal reports at least one error; an empty services list is refused; a missing hours, calendar or services section is refused |
| ConfigSchema.BrokenShopRejected | test/test_non_llm_flow.py:189-206 | the test's configuration with an empty service list and no hours or calendar is refused with exactly those three errors, in field order |
| ConfigSchema.HoursPatternIsShapeOnly | core/config_schema.py:25-26 | `9:00` is refused for want of a leading zero, while `99:99` is accepted, because the pattern checks shape, not range |
| ConfigSchema.BlankServiceName | core/config_schema.py:14-16 | a service named with spaces only is refused with the empty-name error |
| ConfigSchema.PaddedServiceName | core/config_schema.py:17 | a padded name is stored stripped, with the default duration and no price |
| ConfigSchema.StripOilChange | core/config_schema.py:17 | `" Oil Change "` strips to `"Oil Change"` |
| Settings.FromRoot | core/config_schema.py:36-42 | the dictionary form of a validated configuration lists each service with its name and duration, and carries the hours, interval and calendar path |
| Settings.ServiceNames | assistant/slot_extractor.py:71 | `[s["name"] for s in config.get("services", [])]` lists every configured service's name, in order |
| SlotExtractor.SearchDateFrom | assistant/slot_extractor.py:19 | `re.search` of the date pattern finds the leftmost position where it matches, or reports that it matches nowhere |
| SlotExtractor.DateSlot | assistant/slot_extractor.py:19-21 | definition: `group(1)` of the first date match, the ten matched characters |
| SlotExtractor.TimeGroupAtMeansMatch | assistant/slot_extractor.py:10 | the hour group is captured at a position if and only if the whole time pattern matches there with that group |
| SlotExtractor.SearchTimeFrom | assistant/slot_extractor.py:23 | `re.search` of the time pattern finds the leftmost match and its group, or reports that there is none |
| SlotExtractor.TimeSlotIsHourOnly | assistant/slot_extractor.py:25 | `group(1)` of the time pattern, as written, is one or two digits of hour with no colon, and it is followed by the colon in the input |
| SlotExtractor.TimeSlot | assistant/slot_extractor.py:23-25 | definition: `group(1)` of the first time match, as written; `TimeSlotIsHourOnly` states what it holds |
| SlotExtractor.TimeSlotNeverParses | assistant/slot_extractor.py:25 | the time slot written as `group(1)` never parses as `%H:%M`, alone or joined to a date without a colon; the extracted slots are not stored in the session, so this does not reach a booking (`PreparedAsIntended`) |
| SlotExtractor.TimeTextParses | assistant/slot_extractor.py:10 | the whole matched time text, used in its place, always parses as an hour 0-23 and a minute 0-59 |
| SlotExtractor.TimeText | assistant/slot_extractor.py:10 | definition: the whole first time match, corrected; `TimeTextParses` states that it parses |
| SlotExtractor.TimeSlotPrefixOfText | assistant/slot_extractor.py:23-25 | the hour-only slot is present if and only if the whole match is, and is a non-empty proper prefix of it |
| SlotExtractor.FirstServiceFrom | assistant/slot_extractor.py:28-31 | the first known service whose lower-cased name occurs in the input, searching in configuration order, or none |
| SlotExtractor.ServiceSlot | assistant/slot_extractor.py:27-31 | definition: the configured spelling of the first known service whose name occurs in the input, ignoring case |
| SlotExtractor.ExtractedSlots | assistant/slot_extractor.py:12-32 | the slots hold only service, date and time strings; each is present if and only if its pattern or name is found; the date is the matched text, the time `group(1)` (the hour only) and the service the configured name |
| SlotExtractor.ExtractSlotsDeterministic | assistant/slot_extractor.py:12-32 | the method computes `ExtractedSlots` of its input |
| SlotExtractor.IntendedSlots | assistant/slot_extractor.py:10-25 | the corrected extraction: the same service and date, and the time present if and only if a match is found, holding the whole match |
| SlotExtractor.Merged | assistant/slot_extractor.py:75-77 | extracted slots win; a booking slot missing from them is taken from the session; nothing else is added |
| SlotExtractor.ClarifyKey | assistant/slot_extractor.py:40-63 | definition: one clarify step on the call state; `ClarifyKeyEffect`, `ClarifiedValues` and `ClarifyKeyLeaves` state its effect |
| SlotExtractor.Clarified | assistant/slot_extractor.py:34-65 | definition: the service, date and time steps in that order; `ClarifiedAsksOncePerMissingSlot` states how many answers it reads |
| SlotExtractor.Prepared | assistant/slot_extractor.py:67-80 | definition: extract, merge the session values, clarify; `PreparedKeepsExtracted` and `PreparedAsIntended` state its properties |
| SlotExtractor.ClarifyKeySameFill | assistant/slot_extractor.py:40-63 | a clarify step reads only whether its slot is filled: two slot maps that agree on that reach the same call state and still agree |
| SlotExtractor.PreparedAsIntended | assistant/slot_extractor.py:67-80 | the hour-only time slot does not change the outcome: preparing with it leaves the call in the same state as preparing with the whole match |
| SlotExtractor.ClarifyKeyEffect | assistant/slot_extractor.py:40-63 | asking for one slot logs nothing and prompts nothing, collects once exactly when the slot is missing, touches no other slot, and changes nothing on an empty answer |
| SlotExtractor.ClarifiedAsksOncePerMissingSlot | assistant/slot_extractor.py:34-65 | `clarify_missing_slots` collects exactly one answer per missing slot and logs nothing |
| SlotExtractor.ClarifyKeyAsks | assistant/slot_extractor.py:40-47 | asking for one slot collects once if it is missing and never otherwise, and logs nothing |
| SlotExtractor.ClarifyKeyKeeps | assistant/slot_extractor.py:40-63 | asking for one slot does not change whether another is filled |
| SlotExtractor.CollectNAdd | test/test_non_llm_flow.py:32-40 | m collects followed by n collects are m + n collects |
| SlotExtractor.PreparedKeepsExtracted | assistant/slot_extractor.py:67-80 | a slot already found in the input leaves its session value untouched during preparation |
| SlotExtractor.ClarifyKeyLeaves | assistant/slot_extractor.py:40-63 | a filled slot stays filled, and its session value untouched, while another slot is asked for |
| SlotExtractor.ClarifiedValues | assistant/slot_extractor.py:39-63 | for each slot, a non-empty answer is stored under its key in the slots and the session, title-cased for the service and only stripped, never validated, for the date and the time, and `clarified_<key>` is recorded with the raw answer; an empty answer changes nothing but the adapter; the log is untouched |
| SlotExtractor.AskIfMissing | assistant/slot_extractor.py:40-47 | the method's slots and call state are those of `ClarifyKey` on the state before |
| SlotExtractor.ClarifyMissingSlots | assistant/slot_extractor.py:34-65 | the method's slots and call state are those of `Clarified` on the state before |
| SlotExtractor.ExtractAndPrepare | assistant/slot_extractor.py:67-80 | the method's slots and call state are those of `Prepared` (extract, merge, clarify) on the state before |
| BookingHandler.ValidateDate | core/booking_handler.py:7-11 | definition: `re.match(r"\d{4}-\d{2}-\d{2}")`; `ValidateDateIsPrefixTest`, `FormattedPassesValidators` and `PrefixValidatorsAreLoose` state its properties |
| BookingHandler.ValidateTime | core/booking_handler.py:13-17 | definition: `re.match(r"\d{2}:\d{2}")`; `ValidateTimeIsPrefixTest`, `FormattedPassesValidators` and `PrefixValidatorsAreLoose` state its properties |
| BookingHandler.ValidateDateIsPrefixTest | core/booking_handler.py:11 | the date test passes if and only if the input has ten characters and its first ten pass; whatever follows a passing date passes with it |
| BookingHandler.ValidateTimeIsPrefixTest | core/booking_handler.py:17 | the time test passes if and only if the input has five characters and its first five pass; whatever follows a passing time passes with it |
| BookingHandler.FormattedPassesValidators | core/booking_handler.py:7-17 | every date `strftime("%Y-%m-%d")` writes and every time `strftime("%H:%M")` writes pass the tests |
| BookingHandler.Overlaps | core/booking_handler.py:30 | definition: `start < event.end and end > event.begin`; `OverlapsIffCommonMinute` states what it means |
| BookingHandler.AnyOverlap | core/booking_handler.py:29-31 | definition: some event of the calendar overlaps the interval |
| BookingHandler.OverlapsIffCommonMinute | core/booking_handler.py:30 | `start < event.end and end > event.begin` holds if and only if the two intervals share a minute |
| BookingHandler.OverlapsSymmetric | core/booking_handler.py:30 | the overlap test is symmetric in the two intervals |
| BookingHandler.TouchingDoesNotOverlap | core/booking_handler.py:30 | back-to-back intervals do not conflict |
| BookingHandler.IsTimeConflict | core/booking_handler.py:19-32 | an unparsable date and time raise `ValueError`; an interval ending outside the `datetime` range raises `OverflowError`; otherwise the result is whether any calendar event overlaps `[start, start + duration)` |
| BookingHandler.DatetimeRangeEnds | core/booking_handler.py:27 | `datetime.min` is minute 0 and `datetime.max`, to the minute, is `LastMinute` |
| BookingHandler.MinutesInRange | core/booking_handler.py:26 | every parsed datetime lies in the `datetime` range |
| BookingHandler.LastHalfHour | core/booking_handler.py:27 | adding the default 30 minutes overflows if and only if the start is 9999-12-31 at 23:30 or later |
| BookingHandler.ConflictWithItself | core/booking_handler.py:29-31 | an appointment conflicts with a calendar holding that appointment, and nothing conflicts with an empty calendar |
| BookingHandler.AppointmentEvent | utils/calendar_manager.py:35-42 | definition: the event `add_appointment` builds, `<service> for <name>` over the 30 minutes from the start, with its description |
| BookingHandler.BookingSteps | core/booking_handler.py:45-57 | definition: the three checks in order, then the appointment, with the `ValueError` and `OverflowError` of the conflict check as crashes; `BookingCheckOrder` states its properties |
| BookingHandler.HandleBookingFlow | core/booking_handler.py:34-67 | definition: the four answers stripped, then `BookingSteps` |
| BookingHandler.BookingCheckOrder | core/booking_handler.py:45-57 | the date check comes first, then the time check; a booking passed both checks, its slot parsed, and it overlaps no event |
| BookingHandler.PrefixValidatorsAreLoose | core/booking_handler.py:11 | `2025-02-31`, `99:99` and `10:30pm` pass the prefix validators although the date is impossible |
| BookingHandler.ImpossibleDateRefused | core/booking_handler.py:26 | strptime refuses `2025-02-31 10:00` |
| BookingHandler.BookingCrashesOnImpossibleDate | core/booking_handler.py:45-53 | the questionnaire, as written, crashes with `ValueError` on the date `2025-02-31` |
| BookingHandler.LastSlotOverflows | core/booking_handler.py:27 | as written, a valid booking at 9999-12-31 23:59 ends in `OverflowError` |
| BookingHandler.ImpossibleDateStripped | core/booking_handler.py:42 | the date `2025-02-31` is unchanged by `strip` |
| BookingHandler.ClockStripped | core/booking_handler.py:43 | the time `10:00` is unchanged by `strip` |
| BookingHandler.CrashingSteps | core/booking_handler.py:45-53 | the checks, as written, crash on `2025-02-31 10:00` |
| BookingHandler.BookingStepsChecked | core/booking_handler.py:45-57 | with full validation the date is refused if and only if it does not parse, the time if and only if it does not; the only crash is `OverflowError`, exactly when both parse and the appointment would end after 9999-12-31 23:59; a booking happens if and only if both parse, it ends in range and it overlaps no event |
| BookingHandler.HandleBookingFlowChecked | core/booking_handler.py:34-67 | with full validation the only exception left is `OverflowError`, raised exactly when the stripped answers parse to 9999-12-31 at 23:30 or later |
| Assistant.ClassifyIntent | assistant/assistant.py:37-46 | booking if a booking word occurs (ignoring case); otherwise pricing if a pricing word occurs; otherwise information if an information word occurs; otherwise general |
| Assistant.ClassifyIgnoresCase | assistant/assistant.py:38 | the classification of a lower-cased input is that of the input |
| Assistant.AbsentChar | assistant/assistant.py:39 | a word with a character the input lacks does not occur in it |
| Assistant.ValidateDateFormat | assistant/assistant.py:280-285 | the date check passes if and only if strptime accepts `%Y-%m-%d` |
| Assistant.ValidateTimeFormat | assistant/assistant.py:287-297 | a passing time has exactly one colon (with `ValidateTimeFormatMeans` and `ValidateTimeNeedsColon`, the validator passes exactly on one colon with an hour 0-23 and a minute 0-59 read by `int()`) |
| Assistant.ValidateTimeFormatMeans | assistant/assistant.py:287-297 | read through its first colon, the time check passes if and only if no second colon follows, `int()` reads an hour 0-23 before it and a minute 0-59 after it |
| Assistant.ValidateTimeNeedsColon | assistant/assistant.py:288-290 | a time without a colon never passes |
| Assistant.ClockPassesValidator | assistant/assistant.py:287-297 | every time strptime accepts as `%H:%M` passes the time check |
| Assistant.ClockParts | assistant/assistant.py:288-296 | a parsed clock is hour digits, a colon and minute digits, whose `int()` values are within 0-23 and 0-59 |
| Assistant.ClockColon | assistant/assistant.py:302 | in a parsed clock the hour match is followed by the colon and a minute match that ends the string |
| Assistant.ValidFromParts | assistant/assistant.py:288-296 | a string that splits into two pieces whose `int()` values are an hour and a minute passes the time check |
| Assistant.DigitsInt | assistant/assistant.py:293 | `int()` of a non-empty run of digits is its decimal value |
| Assistant.DigitsSplit | assistant/assistant.py:288 | digits, a colon and digits split into the two digit runs |
| Assistant.TwoDigitsInt | assistant/assistant.py:293 | `int()` of two digits is their decimal value |
| Assistant.OneDigitInt | assistant/assistant.py:293 | `int()` of one digit is its value |
| Assistant.HourValue | assistant/assistant.py:293 | the digits matched by `%H` read back, with `int()`, as the hour matched, at most 23 |
| Assistant.MinuteValue | assistant/assistant.py:294 | the digits matched by `%M` read back, with `int()`, as the minute matched, at most 59 |
| Assistant.SpacedTimePassesValidator | assistant/assistant.py:287-297 | `9 : 05` passes the time check (because `int()` strips spaces) but does not parse as `%H:%M`, so the validator is weaker than the parse it guards |
| Assistant.SpacedTimeUnparsed | assistant/assistant.py:302 | `9 : 05` is not a `%H:%M` clock |
| Assistant.SpacedTimeValidated | assistant/assistant.py:287-297 | `9 : 05` passes the time check |
| Assistant.SpacedHour | assistant/assistant.py:293 | `int("9 ")` is 9 |
| Assistant.SpacedMinute | assistant/assistant.py:294 | `int(" 05")` is 5 |
| Assistant.ParseLocalOfValid | assistant/assistant.py:299-303 | a valid date and a `%H:%M` clock always parse together, to that day at that hour and minute |
| Assistant.ParseLocalDateTime | assistant/assistant.py:299-303 | definition: `strptime` of the date and the time joined by a space (the time zone left out); `ParseLocalOfValid` states its property |
| Assistant.PricedLines | assistant/assistant.py:263-265 | there is at most one price line per configured service |
| Assistant.PricedLinesExactly | assistant/assistant.py:263-265 | a line is listed if and only if it is `name: price` for a configured service whose lower-cased name occurs in the input |
| Assistant.PricedLinesSnoc | assistant/assistant.py:263-265 | one more service adds its line at the end exactly when its name occurs (the loop's step) |
| Assistant.FindPriced | assistant/assistant.py:262-265 | the loop collects exactly `PricedLines` |
| Assistant.NamesOf | assistant/assistant.py:269 | the options list every configured service's name, in order |
| Assistant.PricingText | assistant/assistant.py:261-269 | definition: the priced lines of the services named in the question, or the list of names when none is; `PricedLinesExactly` states which lines |
| Assistant.HoursText | assistant/assistant.py:253-256 | definition: the opening and closing times configured, `09:00` and `17:00` when absent |
| Assistant.InfoReply | assistant/assistant.py:249-277 | as written: hours words give the opening hours; otherwise `price` or `cost` gives the pricing reply; the fallback is given exactly when neither |
| Assistant.HowMuchFallsBack | assistant/assistant.py:42 | `How much?` is classified as pricing yet gets the fallback reply as written |
| Assistant.LowerHowMuch | assistant/assistant.py:251 | `How much?` lower-cases to `how much?` |
| Assistant.HowMuchWords | assistant/assistant.py:41 | `how much?` contains a pricing word |
| Assistant.HowMuchNoBookingWord | assistant/assistant.py:39 | `how much?` contains no booking word |
| Assistant.HowMuchNoInfoWord | assistant/assistant.py:252-260 | `how much?` has no hours word and neither `price` nor `cost` |
| Assistant.InfoReplyFixed | assistant/assistant.py:249-277 | corrected: hours words give the hours; otherwise any pricing word of the classifier gives the pricing reply; the step is always one of the three |
| Assistant.PricingNeverFallsBack | assistant/assistant.py:80-81 | an input classified as pricing always gets the hours or the pricing reply under the corrected rule |
| Assistant.InfoReplyFixedAgrees | assistant/assistant.py:249-272 | wherever the code as written does not fall back, the corrected rule gives the same reply |
| Assistant.InfoAnswered | assistant/assistant.py:249-277 | definition: the reply of `InfoReply`, logged and then recorded under its step; `InfoAnsweredQuiet` states its effect |
| Assistant.HandleInfoIntent | assistant/assistant.py:249-277 | the reply and the call state are those of `InfoAnswered` (the rule as written, logged and recorded) on the state before |
| Assistant.Accepted | assistant/assistant.py:104-132 | a service answer is always accepted stripped and title-cased; a date answer is accepted if and only if it parses as `%Y-%m-%d`; a time answer if and only if it passes `validate_time_format`; an accepted date or time is the stripped answer |
| Assistant.ClarifyAttempt | assistant/assistant.py:104-133 | one attempt only grows the call state, keeps the escalation flag, and consumes at most one answer |
| Assistant.Answered | assistant/assistant.py:107-132 | an accepted answer sets exactly that slot, a refused one changes no slot; the state only grows |
| Assistant.MissingSlots | assistant/assistant.py:93 | lists only booking slots that are not filled, and every booking slot that is not filled |
| Assistant.ConfirmationText | assistant/assistant.py:138 | definition: the confirmation question built from the three slots |
| Assistant.Affirmed | assistant/assistant.py:173 | definition: one of the five affirmation words occurs in the reply |
| Assistant.ServiceDuration | assistant/assistant.py:182-188 | definition: the duration of the first configured service of that name, ignoring case, 30 when absent; `ValidatedDurationPositive` states its property |
| Assistant.ClarifySlot | assistant/assistant.py:98-133 | definition: the `while` loop for one slot from a given attempt; `ClarifySlotEnds`, `ClarifySlotBudget` and `ClarifySlotKeepsOthers` state its properties |
| Assistant.ClarifyAll | assistant/assistant.py:96-133 | definition: the loop over the missing slots, stopping at the first escalation; `ClarifyAllFills` states its property |
| Assistant.Clarification | assistant/assistant.py:92-133 | definition: preparation, then the loops over the slots still missing; `ClarificationOutcome` states its properties |
| Assistant.Confirmed | assistant/assistant.py:136-170 | definition: the usage check, the model call and its error, then `Interpreted`; `ConfirmedOutcome` and the `Confirmed*` lemmas state its properties |
| Assistant.Interpreted | assistant/assistant.py:172-246 | definition: book on an affirmation, otherwise ask the caller to start again |
| Assistant.Booked | assistant/assistant.py:175-207 | definition: parse, duration, the calendar key, the conflict check; `BookedOutcome` and the `Booked*` lemmas state its properties |
| Assistant.Conflicted | assistant/assistant.py:192-225 | definition: note the conflict, then offer the suggestion or escalate; `ConflictedSuggests` and `ConflictedNoAlternative` state its properties |
| Assistant.Suggested | assistant/assistant.py:208-221 | definition: offer the slot and take it on an answer starting with `y`; `SuggestedOutcome` states its properties |
| Assistant.Finalized | assistant/assistant.py:227-240 | definition: write the event, then confirm or escalate on the error; `FinalizedOutcome` states its properties |
| Assistant.BookingFlow | assistant/assistant.py:92-246 | definition: clarification, then confirmation; `BookingFlowOutcome` states its properties |
| Assistant.Interaction | assistant/assistant.py:68-246 | definition: one turn, the intent routing to the information reply, the fallback or the booking flow; `InteractionOutcome` and `InteractionNotBooking` state its properties |
| Assistant.FirstNamed | assistant/assistant.py:184-187 | the first configured service whose name equals the requested one ignoring case, or none |
| Assistant.ValidatedDurationPositive | assistant/assistant.py:183-188 | with a validated configuration the booking's duration is positive, whatever the service |
| Assistant.ConfirmationNoted | assistant/assistant.py:164-166 | noting the model's reply adds one history entry and keeps the slots and the adapter |
| Assistant.ConflictNoted | assistant/assistant.py:193-195 | a conflict adds one `conflict_detected` history entry and keeps the slots and the answers |
| Assistant.TookSuggestion | assistant/assistant.py:212-217 | taking the suggestion sets date and time to the suggested slot's strftime renderings and adds one `accepted_suggestion` entry |
| Assistant.Heard | assistant/assistant.py:74-77 | logging the input and its intent changes neither the session nor the adapter |
| Assistant.GrowsTrans | assistant/assistant.py:68-246 | growth of the call state is transitive |
| Assistant.ClarifySlotGrows | assistant/assistant.py:98-133 | the clarification loop for one slot only grows the call state, and keeps the flag unless it escalates |
| Assistant.ClarifySlotEnds | assistant/assistant.py:98-103 | the loop ends with the slot filled, or escalated with the escalation message, the slot still missing and a `failed_clarify_` entry as the last log line |
| Assistant.ClarifySlotKeepsOthers | assistant/assistant.py:98-133 | the loop for one slot never touches another slot |
| Assistant.ClarifySlotBudget | assistant/assistant.py:98-103 | the loop consumes at most `max_slot_attempts` answers |
| Assistant.SilentCallerEscalated | assistant/assistant.py:99-103 | a caller with no answers left is escalated on a missing slot |
| Assistant.AcceptedAnswerFills | assistant/assistant.py:104-132 | within the budget, a non-empty accepted answer fills the slot with the accepted value and the loop goes on |
| Assistant.ClarifyAllFills | assistant/assistant.py:96-133 | after the loops every booking slot is filled and the flag is unchanged, or the call is escalated with the escalation message |
| Assistant.ClarifySlotUnbooked | assistant/assistant.py:98-133 | the clarification loop never confirms an appointment |
| Assistant.ClarifyAllUnbooked | assistant/assistant.py:96-133 | the loops over all missing slots only grow the state and confirm nothing |
| Assistant.AttemptUnbooked | assistant/assistant.py:104-133 | one clarification attempt confirms nothing |
| Assistant.UnbookedTrans | assistant/assistant.py:68-246 | two stages that confirm nothing together confirm nothing |
| Assistant.ClarifyKeyUnbooked | assistant/slot_extractor.py:40-63 | asking for one slot during preparation grows the state, keeps the flag and confirms nothing |
| Assistant.PreparedUnbooked | assistant/slot_extractor.py:67-80 | preparation only grows the state, keeps the flag and confirms nothing |
| Assistant.ClarificationOutcome | assistant/assistant.py:92-133 | extraction and clarification confirm nothing and either fill all three slots with the flag unchanged or stop with the escalation message |
| Assistant.ClarifyMissingOutcome | assistant/assistant.py:93-133 | clarifying the computed missing slots either fills all three or stops with the escalation message |
| Assistant.FinalizedOutcome | assistant/assistant.py:227-240 | a successful calendar write confirms exactly that service and instant with the confirmation message; a failed one escalates and confirms nothing |
| Assistant.AppointmentSince | assistant/assistant.py:234 | a confirmation recorded after a later point was also recorded after an earlier one |
| Assistant.AppointmentFrom | assistant/assistant.py:234 | what counts as confirmed depends only on the history at the start |
| Assistant.TookThenSlots | assistant/assistant.py:212-217 | after taking the suggestion the date and time slots parse back to the suggested instant |
| Assistant.TookThenWritten | assistant/assistant.py:212-240 | after taking the suggestion a successful write confirms the suggested instant with the confirmation message; a failed one escalates |
| Assistant.SuggestionTaken | assistant/assistant.py:208-217 | an answer starting with `y` in any case moves the slots to the suggestion, which parses back to it |
| Assistant.SuggestionWritten | assistant/assistant.py:208-240 | an answer starting with `y` books the suggested instant if the calendar write succeeds, and escalates otherwise |
| Assistant.SuggestedTakes | assistant/assistant.py:208-217 | an answer starting with `y` leads to taking the suggestion and finalizing it |
| Assistant.SuggestionRefused | assistant/assistant.py:218-221 | any other answer escalates with the escalation message, keeps the slots and confirms nothing |
| Assistant.SuggestedOutcome | assistant/assistant.py:208-240 | a suggestion ends in a spoken reply with the slots kept or moved to the suggestion, and any confirmation is of the suggestion |
| Assistant.ConflictedNoAlternative | assistant/assistant.py:222-225 | a conflict with no alternative escalates, keeps the slots and confirms nothing |
| Assistant.ConflictedSuggests | assistant/assistant.py:197-210 | a conflict with an alternative notes the conflict and offers exactly that alternative |
| Assistant.ConflictedAlternative | assistant/assistant.py:192-225 | a conflict with an alternative ends in a spoken reply with the slots kept or moved to it, and any confirmation is of the alternative |
| Assistant.AlternativeAfterNote | assistant/assistant.py:193-225 | the outcome of the suggestion, seen from before the conflict was noted, is still a growth with kept or moved slots and a confirmation of the suggestion |
| Assistant.ConfirmsSince | assistant/assistant.py:227-236 | a confirmation is still one seen from an earlier point of the same call with the same flag |
| Assistant.BookedUnparsed | assistant/assistant.py:175-180 | slots that do not parse escalate, keep the slots and confirm nothing |
| Assistant.BookedWithoutCalendar | assistant/assistant.py:191 | with no `calendar` key the booking raises `KeyError` and confirms nothing |
| Assistant.BookedFree | assistant/assistant.py:183-240 | with no conflict the duration is recorded, and the booking is confirmed with the requested instant if the write succeeds; otherwise the call is escalated |
| Assistant.BookedConflicting | assistant/assistant.py:188-207 | a conflicting request records the duration, then handles the conflict with that duration, calendar and interval |
| Assistant.BookedConflictOutcome | assistant/assistant.py:188-240 | a conflicting request ends in a spoken reply with the slots kept or moved to some slot, and any confirmation is of the slots' instant |
| Assistant.BookedOutcome | assistant/assistant.py:175-240 | the booking only grows the state; with a calendar it always speaks; any confirmation is of the requested service, with the written event, the confirmation message and parsing slots |
| Assistant.KeepsSlotsSized | assistant/assistant.py:188 | recording the duration keeps the service text and the filled slots |
| Assistant.KeepsSlotsMoved | assistant/assistant.py:213-214 | moving to the suggestion keeps the service text and the filled slots |
| Assistant.MovedKeepsDuration | assistant/assistant.py:213-214 | moving to the suggestion keeps the recorded duration |
| Assistant.KeepsSlotsTrans | assistant/assistant.py:175-240 | keeping the slots is transitive |
| Assistant.BookedSlots | assistant/assistant.py:175-240 | the booking step keeps the service text and every filled slot |
| Assistant.BookedConflictKeepsSlots | assistant/assistant.py:192-225 | the conflict path keeps the service text and every filled slot |
| Assistant.BookedRecordsDuration | assistant/assistant.py:183-188 | once the slots parse, the session's `duration_minutes` is the service's duration, whatever happens afterwards |
| Assistant.ConfirmedOverLimit | assistant/assistant.py:142-145 | over the usage limit the call speaks the escalation message, leaves the session unchanged and confirms nothing |
| Assistant.ConfirmedModelError | assistant/assistant.py:167-170 | a model error escalates, keeps the slots and confirms nothing |
| Assistant.ConfirmedRejected | assistant/assistant.py:241-246 | a reply without an affirmation asks to try again, keeps the slots and the flag, and confirms nothing |
| Assistant.ConfirmedAffirmed | assistant/assistant.py:164-176 | an affirmation notes the reply and proceeds to booking the stored service |
| Assistant.ConfirmedOutcome | assistant/assistant.py:136-246 | the confirmation stage grows the state and speaks when there is a calendar; any confirmed appointment needs the model to be callable and to affirm, and is of the stored service with a written event |
| Assistant.ConfirmedBooking | assistant/assistant.py:173-240 | after an affirmation any confirmed appointment is of the stored service with a written event, the confirmation message and parsing slots |
| Assistant.ConfirmedSlots | assistant/assistant.py:136-246 | the confirmation stage keeps the service text and every filled slot |
| Assistant.ConfirmedAfter | assistant/assistant.py:134-246 | a confirmation that follows complete clarification confirms only with all three slots filled, the stored service and a written event |
| Assistant.InteractionNotBooking | assistant/assistant.py:80-89 | a non-booking request speaks, keeps slots, answers and flag, and never confirms an appointment |
| Assistant.InfoAnsweredQuiet | assistant/assistant.py:249-277 | an information reply speaks, keeps slots, adapter and flag and confirms nothing |
| Assistant.BookingFlowOutcome | assistant/assistant.py:92-246 | a booking request grows the state and speaks when there is a calendar; any confirmed appointment has all three slots filled, is of the stored service, was written to the calendar and is announced with the confirmation message |
| Assistant.InteractionOutcome | assistant/assistant.py:68-246 | every turn grows the state (log and history prefixes, flag never cleared, same call); with a calendar it speaks; an appointment is confirmed only for a booking intent with all slots filled, a successful calendar write and parsing slots |
| Assistant.EnvConfigBookingRaises | assistant/assistant.py:191 | with the module-level `config` (the environment dictionary) an affirmed, parsable booking raises `KeyError` |
| Assistant.ValidatedConfigAlwaysReplies | assistant/assistant.py:68-246 | with a validated configuration every turn ends in a spoken reply, given oracles that return (see Left out) |
| Assistant.ClarifySlotLoop | assistant/assistant.py:96-133 | the `while` loop for one slot ends in the state `ClarifySlot` gives, and reports whether it escalated |
| Assistant.AskSlot | assistant/assistant.py:104-132 | one pass of the loop body moves the state as `ClarifyAttempt` with `Accepted` |
| Assistant.ClarifyAllLoop | assistant/assistant.py:96-133 | the `for` loop over the missing slots ends in the state `ClarifyAll` gives, and reports whether it escalated |
| Assistant.DurationFor | assistant/assistant.py:183-187 | the loop finds the first same-named service's duration, 30 by default |
| Assistant.FinalizeBooking | assistant/assistant.py:227-240 | reply and state are those of `Finalized` |
| Assistant.HandleConflict | assistant/assistant.py:192-225 | reply and state are those of `Conflicted` |
| Assistant.OfferSuggestion | assistant/assistant.py:208-221 | reply and state are those of `Suggested` |
| Assistant.BookAppointment | assistant/assistant.py:175-240 | reply and state are those of `Booked` |
| Assistant.ConfirmBooking | assistant/assistant.py:136-246 | reply and state are those of `Confirmed` |
| Assistant.NoteConfirmation | assistant/assistant.py:164-166 | the state moves as `ConfirmationNoted` says |
| Assistant.EscalateWith | assistant/assistant.py:219-221 | prompts the message, escalates with the reason, and returns the escalation message |
| Assistant.InterpretConfirmation | assistant/assistant.py:173-246 | reply and state are those of `Interpreted` |
| Assistant.HandleBooking | assistant/assistant.py:92-246 | reply and state are those of `BookingFlow` with `Accepted` |
| Assistant.ProcessInteraction | assistant/assistant.py:68-246 | reply and state are those of `Interaction` on the state before |

## Left out

- The OpenAI client, `SYSTEM_PROMPT`, `build_llm_prompt` and the token accounting with `record_usage` (assistant/assistant.py:15-65, 141, 148-163). The model's reply is the `confirm` oracle.
- `can_call_model`, `has_conflict`, `suggest_next_slot` and `add_event_to_calendar` (usage_guard, ics_writer) are oracle parameters. Their own code is not part of this model.
- The time zone that `parse_local_datetime` attaches (assistant/assistant.py:300-303) is not modelled. Instants are naive, and `isoformat()` of the booked instant is kept as the instant itself.
- Timestamps (`created_at`, `updated_at`, each entry's `timestamp`) come from the clock, so they are left out. `uuid.uuid4()` is the `generatedId` argument.
- The prompt text passed to `collect` is not recorded, because the scripted adapter ignores it.
- Assistant.SlotText: `f"{value}"` is modelled only for string values. This flow stores nothing else in those slots; other values render as "".
- Text.Lower and Text.Title: ASCII case mapping only; Unicode case mapping is not modelled.
- Text.PyInt: only ASCII digits are read, so `int()` of other Unicode decimal digits is not modelled.
- The file reads and writes of `_load` and `_save` (utils/structured_logger.py:10-21) are modelled by the `Store` value that was read and the list of calls kept in memory. JSON encoding and concurrent writers are not modelled.
- `config_loader`, the interactive CLI, `entrypoint`, `main`, and the persistence and calendar utilities are not part of this model.
- The console `CLIAdapter` (print and input) is not modelled. The scripted adapter used by the non-model tests stands in for it.
- The model-driven test suite `test_llm_flow` is not part of this model.
- BookingHandler: `print`, `input`, `add_appointment` and `log_interaction` are I/O, so the questionnaire is modelled on its four answers and the calendar's events.
- Assistant.ValidatedConfigAlwaysReplies: `can_call_model`, `has_conflict` and `suggest_next_slot` (assistant/assistant.py:142, 191, 199) are called outside any `try`, and an exception from them would escape `process_interaction`. The oracles `canCallModel`, `hasConflict` and `suggestNextSlot` always return, so the model does not capture those exceptions, and "always replies" holds only for oracles that return. The same holds for `Assistant.InteractionOutcome`, `Assistant.BookingFlowOutcome`, `Assistant.BookedOutcome` and `Assistant.ConfirmedOutcome`.
- DateTimes.ParseDate, DateTimes.ParseClock and DateTimes.ParseDateTime: only ASCII digits are read. `strptime`'s `\d` patterns also accept other Unicode decimal digits, and that is not modelled.
- SlotExtractor.SearchDateFrom and SlotExtractor.SearchTimeFrom: `\d` is read as an ASCII digit. Python's `re` also matches other Unicode decimal digits there, and that is not modelled.
- BookingHandler.ValidateDate and BookingHandler.ValidateTime: `\d` is read as an ASCII digit, so a Unicode decimal digit that `re.match` accepts is refused by the model.
- ConfigSchema.ValidateHours: the `^\d{2}:\d{2}$` pattern is read with ASCII digits only, so a Unicode decimal digit that the pattern may accept is refused by the model.
- ConfigSchema.ValidateRoot: the raw configuration holds values already typed (strings, integers, lists). Pydantic's lax coercion is not modelled, for example of `"30"` to `30` or of a number to a path.

## Findings

| source | as written | input that shows it | evidently intended | confidence | as-written member | corrected member |
|---|---|---|---|---|---|---|
| core/booking_handler.py:11 | `re.match(r"\d{4}-\d{2}-\d{2}")` only checks a prefix's shape, and `is_time_conflict` then calls `strptime`, whose `ValueError` nothing catches | date `2025-02-31`, time `10:00` | refuse a date or time that `strptime` cannot parse | not executed | BookingHandler.BookingCrashesOnImpossibleDate | BookingHandler.HandleBookingFlowChecked |
| assistant/slot_extractor.py:25 | `group(1)` of `([01]?\d\|2[0-3]):[0-5]\d` is only the hour, so `"10:30"` extracts the time `"10"`, which never parses as `%H:%M` | `Oil Change 2025-08-18 09:00` extracts time `09` | store the whole matched `HH:MM` text | not executed | SlotExtractor.TimeSlotNeverParses | SlotExtractor.TimeTextParses |
| assistant/assistant.py:191 | `config` is the environment dictionary from `load_env_variables()` (line 15), which has no `calendar` key, so `config["calendar"]` raises `KeyError` after every affirmed, parsable booking | any booking that the model affirms | read the validated shop configuration | not executed | Assistant.EnvConfigBookingRaises | Assistant.ValidatedConfigAlwaysReplies |
| assistant/assistant.py:260 | pricing replies only for `price` or `cost`, while the classifier (line 42) also routes `how much`, `fee` and `charge` here | `How much?` | answer every pricing request with prices, as test_non_llm_flow.py:150-152 expects | not executed | Assistant.HowMuchFallsBack | Assistant.PricingNeverFallsBack |

The rest of the model follows the code as written, and the corrected
members stand beside it:

- `SlotExtractor.ExtractedSlots` stores `group(1)` as the time. `SlotExtractor.PreparedAsIntended` proves that this hour-only value never reaches the session. With the whole match (`SlotExtractor.IntendedSlots`) preparation ends in the same call state.
- `Assistant.InfoAnswered`, and so `Assistant.HandleInfoIntent` and `Assistant.Interaction`, use `Assistant.InfoReply` as written. `Assistant.InfoReplyFixedAgrees` proves that the corrected rule differs only where the code falls back.
- `Assistant.Interaction` takes the shop configuration as a parameter. `Assistant.EnvConfigBookingRaises` covers the environment dictionary, and `Assistant.ValidatedConfigAlwaysReplies` covers the validated configuration.
- `BookingHandler.HandleBookingFlow` uses the prefix validators as written. `BookingHandler.HandleBookingFlowChecked` validates with `strptime` itself.
