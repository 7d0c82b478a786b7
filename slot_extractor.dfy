/** Deterministic slot extraction and one round of clarification
    (`assistant/slot_extractor.py`). */
module SlotExtractor {
  import opened Common
  import opened Text
  import opened DateTimes
  import opened Values
  import opened Session
  import opened IoAdapter
  import opened Conversation
  import opened StructuredLogger
  import opened Settings

  /** The booking slots, in the order they are asked for. */
  function SlotKeys(): seq<string> {
    ["service", "date", "time"]
  }

  predicate IsSlotKey(k: string) {
    k == "service" || k == "date" || k == "time"
  }

  /** `re.search(DATE_PATTERN, s)` looking from index `i` on: the leftmost match. */
  function SearchDateFrom(s: string, i: nat): (r: Option<nat>)
    requires i <= |s|
    ensures r.Some? ==> i <= r.value && DateShapeAt(s, r.value)
    ensures r.Some? ==> forall j :: i <= j < r.value ==> !DateShapeAt(s, j)
    ensures r.None? ==> forall j :: i <= j ==> !DateShapeAt(s, j)
    decreases |s| - i
  {
    if i + 10 > |s| then None
    else if DateShapeAt(s, i) then Some(i)
    else SearchDateFrom(s, i + 1)
  }

  /** The date slot: group 1 of the first `(\d{4}-\d{2}-\d{2})` match, verbatim. */
  function DateSlot(s: string): Option<string> {
    match SearchDateFrom(s, 0)
    case None => None
    case Some(i) => Some(s[i..i + 10])
  }

  /** `([01]?\d|2[0-3]):[0-5]\d` matches at `i` with a capture group of length `g`,
      stated without regard to the order in which the regex tries its alternatives. */
  predicate TimeMatchAt(s: string, i: nat, g: nat) {
    && (g == 1 || g == 2)
    && i + g + 3 <= |s|
    && (if g == 1 then IsDigit(s[i])
        else ((s[i] == '0' || s[i] == '1') && IsDigit(s[i + 1])) || (s[i] == '2' && '0' <= s[i + 1] <= '3'))
    && s[i + g] == ':' && '0' <= s[i + g + 1] <= '5' && IsDigit(s[i + g + 2])
  }

  /** The match at `i` as the regex engine finds it: `[01]` then a digit first,
      then a lone digit, then `2[0-3]`; the result is the group's length. */
  function TimeGroupAt(s: string, i: nat): Option<nat> {
    if CharIn(s, i, '0', '1') && DigitAt(s, i + 1) && CharIn(s, i + 2, ':', ':') && CharIn(s, i + 3, '0', '5') && DigitAt(s, i + 4) then Some(2)
    else if DigitAt(s, i) && CharIn(s, i + 1, ':', ':') && CharIn(s, i + 2, '0', '5') && DigitAt(s, i + 3) then Some(1)
    else if CharIn(s, i, '2', '2') && CharIn(s, i + 1, '0', '3') && CharIn(s, i + 2, ':', ':') && CharIn(s, i + 3, '0', '5') && DigitAt(s, i + 4) then Some(2)
    else None
  }

  /** The engine's choice agrees with the declarative reading, and at most one
      group length fits at any index. */
  lemma TimeGroupAtMeansMatch(s: string, i: nat, g: nat)
    ensures TimeGroupAt(s, i) == Some(g) <==> TimeMatchAt(s, i, g)
  {
  }

  /** `re.search(TIME_PATTERN, s)` from index `i`: the leftmost match, as its
      index and the length of its group. */
  function SearchTimeFrom(s: string, i: nat): (r: Option<(nat, nat)>)
    requires i <= |s|
    ensures r.Some? ==> i <= r.value.0 && TimeGroupAt(s, r.value.0) == Some(r.value.1)
    ensures r.Some? ==> forall j :: i <= j < r.value.0 ==> TimeGroupAt(s, j).None?
    ensures r.None? ==> forall j :: i <= j ==> TimeGroupAt(s, j).None?
    decreases |s| - i
  {
    if i + 4 > |s| then None
    else match TimeGroupAt(s, i)
      case Some(g) => Some((i, g))
      case None => SearchTimeFrom(s, i + 1)
  }

  /** The time slot: group 1 only, that is the hour digits before the colon. */
  function TimeSlot(s: string): Option<string> {
    match SearchTimeFrom(s, 0)
    case None => None
    case Some((i, g)) => Some(s[i..i + g])
  }

  /** As written, the time slot is never a full `HH:MM`: it is one or two
      digits naming an hour from 0 to 23, and a colon follows it in the input. */
  lemma TimeSlotIsHourOnly(s: string)
    requires TimeSlot(s).Some?
    ensures var t := TimeSlot(s).value;
            && 1 <= |t| <= 2 && ':' !in t
            && (forall k :: 0 <= k < |t| ==> IsDigit(t[k]))
            && (|t| == 2 ==> 10 * DigitValue(t[0]) + DigitValue(t[1]) <= 23)
            && var i := SearchTimeFrom(s, 0).value.0;
               i + |t| < |s| && s[i..i + |t|] == t && s[i + |t|] == ':'
  {
    var (i, g) := SearchTimeFrom(s, 0).value;
    var t := s[i..i + g];
    assert TimeMatchAt(s, i, g);
    assert forall k :: 0 <= k < |t| ==> t[k] == s[i + k];
  }

  /** As written, the booking built from an extracted time never parses: with
      no colon in it, `strptime(f"{date} {time}", "%Y-%m-%d %H:%M")` fails for
      every date that has none either. */
  lemma TimeSlotNeverParses(s: string, date: string)
    requires TimeSlot(s).Some? && ':' !in date
    ensures ParseClock(TimeSlot(s).value).None?
    ensures ParseDateTime(date + " " + TimeSlot(s).value).None?
  {
    TimeSlotIsHourOnly(s);
    var j := date + " " + TimeSlot(s).value;
    assert ':' !in j;
  }

  /** The time slot as evidently intended: the whole `H:MM` or `HH:MM` match. */
  function TimeText(s: string): Option<string> {
    match SearchTimeFrom(s, 0)
    case None => None
    case Some((i, g)) => Some(s[i..i + g + 3])
  }

  /** The intended time slot is what the clarification validator and
      `strptime(..., "%H:%M")` accept, naming the hour and minute written there. */
  lemma TimeTextParses(s: string)
    requires TimeText(s).Some?
    ensures ParseClock(TimeText(s).value).Some?
    ensures var (h, m) := ParseClock(TimeText(s).value).value; 0 <= h <= 23 && 0 <= m <= 59
  {
    var (i, g) := SearchTimeFrom(s, 0).value;
    var t := s[i..i + g + 3];
    assert TimeMatchAt(s, i, g);
    assert forall k :: 0 <= k < |t| ==> t[k] == s[i + k];
    if g == 1 {
      assert MatchHour(t, 0) == Some(Token(DigitValue(t[0]), 1));
      assert MatchMinute(t, 2) == Some(Token(10 * DigitValue(t[2]) + DigitValue(t[3]), 4));
    } else if t[0] == '2' {
      assert MatchHour(t, 0) == Some(Token(20 + DigitValue(t[1]), 2));
      assert MatchMinute(t, 3) == Some(Token(10 * DigitValue(t[3]) + DigitValue(t[4]), 5));
    } else {
      assert MatchHour(t, 0) == Some(Token(10 * DigitValue(t[0]) + DigitValue(t[1]), 2));
      assert MatchMinute(t, 3) == Some(Token(10 * DigitValue(t[3]) + DigitValue(t[4]), 5));
    }
  }

  /** Index of the first service, from `k` on, whose lower-cased name occurs in
      `lowered`. */
  function FirstServiceFrom(lowered: string, services: seq<string>, k: nat): (r: Option<nat>)
    requires k <= |services|
    ensures r.Some? ==> k <= r.value < |services| && Contains(lowered, Lower(services[r.value]))
    ensures r.Some? ==> forall j :: k <= j < r.value ==> !Contains(lowered, Lower(services[j]))
    ensures r.None? ==> forall j :: k <= j < |services| ==> !Contains(lowered, Lower(services[j]))
    decreases |services| - k
  {
    if k == |services| then None
    else if Contains(lowered, Lower(services[k])) then Some(k)
    else FirstServiceFrom(lowered, services, k + 1)
  }

  /** The service slot: the first configured name, with its configured spelling. */
  function ServiceSlot(input: string, services: seq<string>): Option<string> {
    match FirstServiceFrom(Lower(input), services, 0)
    case None => None
    case Some(k) => Some(services[k])
  }

  /** What `extract_slots_deterministic` returns: `group(1)` of each match, so
      the time slot holds only the hour digits in front of the colon. */
  function ExtractedSlots(input: string, services: seq<string>): (slots: map<string, Value>)
    ensures forall k :: k in slots ==> IsSlotKey(k) && slots[k].Str?
    ensures "date" in slots <==> DateSlot(input).Some?
    ensures "date" in slots ==> slots["date"] == Str(DateSlot(input).value)
    ensures "time" in slots <==> TimeSlot(input).Some?
    ensures "time" in slots ==> slots["time"] == Str(TimeSlot(input).value)
    ensures "service" in slots <==> ServiceSlot(input, services).Some?
    ensures "service" in slots ==> slots["service"] == Str(ServiceSlot(input, services).value)
  {
    var withDate := if DateSlot(input).Some? then map["date" := Str(DateSlot(input).value)] else map[];
    var withTime := if TimeSlot(input).Some? then withDate["time" := Str(TimeSlot(input).value)] else withDate;
    if ServiceSlot(input, services).Some? then withTime["service" := Str(ServiceSlot(input, services).value)] else withTime
  }

  /** The extraction as evidently intended: the same slots, with the whole
      `H:MM` or `HH:MM` match as the time. */
  function IntendedSlots(input: string, services: seq<string>): (slots: map<string, Value>)
    ensures forall k :: k != "time" ==> (k in slots <==> k in ExtractedSlots(input, services))
    ensures forall k :: k != "time" && k in slots ==> slots[k] == ExtractedSlots(input, services)[k]
    ensures "time" in slots <==> TimeText(input).Some?
    ensures "time" in slots ==> slots["time"] == Str(TimeText(input).value)
  {
    var m := ExtractedSlots(input, services);
    if TimeText(input).Some? then m["time" := Str(TimeText(input).value)] else m
  }

  /** The hour-only slot and the intended `H:MM` slot come from the same match:
      one is there exactly when the other is, and it is a non-empty proper
      prefix of it. */
  lemma TimeSlotPrefixOfText(s: string)
    ensures TimeSlot(s).Some? <==> TimeText(s).Some?
    ensures TimeSlot(s).Some? ==> var t := TimeSlot(s).value; var u := TimeText(s).value;
            && t != "" && |t| < |u| && u[..|t|] == t
  {
  }

  /** `extract_slots_deterministic(user_input, known_services)`. */
  method ExtractSlotsDeterministic(userInput: string, knownServices: seq<string>) returns (slots: map<string, Value>)
    ensures slots == ExtractedSlots(userInput, knownServices)
  {
    slots := map[];
    var date := DateSlot(userInput);
    if date.Some? {
      slots := slots["date" := Str(date.value)];
    }
    var time := TimeSlot(userInput);
    if time.Some? {
      slots := slots["time" := Str(time.value)];
    }
    var lowered := Lower(userInput);
    var k := 0;
    while k < |knownServices|
      invariant 0 <= k <= |knownServices|
      invariant FirstServiceFrom(lowered, knownServices, 0) == FirstServiceFrom(lowered, knownServices, k)
    {
      if Contains(lowered, Lower(knownServices[k])) {
        slots := slots["service" := Str(knownServices[k])];
        break;
      }
      k := k + 1;
    }
  }

  /** The merge of `extract_and_prepare`: a session value fills a slot key only
      where extraction found nothing. */
  function Merged(slots: map<string, Value>, state: map<string, Value>): (m: map<string, Value>)
    ensures forall k :: k in slots ==> k in m && m[k] == slots[k]
    ensures forall k :: IsSlotKey(k) && k in state && k !in slots ==> k in m && m[k] == state[k]
    ensures forall k :: k in m ==> k in slots || (IsSlotKey(k) && k in state)
  {
    var service := if "service" in state && "service" !in slots then slots["service" := state["service"]] else slots;
    var date := if "date" in state && "date" !in service then service["date" := state["date"]] else service;
    if "time" in state && "time" !in date then date["time" := state["time"]] else date
  }

  /** One step of `clarify_missing_slots`: when `key` is missing or empty, ask;
      an answer that is not empty is normalised, stored in the slots and the
      session, and recorded in the history. */
  function ClarifyKey(slots: map<string, Value>, e: Env, key: string, title: bool): (map<string, Value>, Env) {
    if Filled(slots, key) then (slots, e)
    else
      var answer := NextAnswer(e.io);
      var e1 := Collected(e);
      if answer == "" then (slots, e1)
      else
        var v := Str(if title then Title(Strip(answer)) else Strip(answer));
        (slots[key := v], Recorded(Updated(e1, key, v), "clarified_" + key, Str(answer), Null, None))
  }

  /** `clarify_missing_slots(slots, session, io_adapter, config)`: service
      (title-cased), then date, then time (both only stripped), none validated. */
  function Clarified(slots: map<string, Value>, e: Env): (map<string, Value>, Env) {
    var (s1, e1) := ClarifyKey(slots, e, "service", true);
    var (s2, e2) := ClarifyKey(s1, e1, "date", false);
    ClarifyKey(s2, e2, "time", false)
  }

  /** The number of slots among service, date and time that are missing or empty. */
  function MissingCount(slots: map<string, Value>): nat {
    (if Filled(slots, "service") then 0 else 1)
    + (if Filled(slots, "date") then 0 else 1)
    + (if Filled(slots, "time") then 0 else 1)
  }

  /** A clarify step asks exactly when the slot is missing or empty, writes only
      that key, never logs and never prompts. */
  lemma ClarifyKeyEffect(slots: map<string, Value>, e: Env, key: string, title: bool)
    ensures var (s, f) := ClarifyKey(slots, e, key, title);
            && f.log == e.log && f.io.prompts == e.io.prompts
            && f.io == (if Filled(slots, key) then e.io else AfterCollect(e.io))
            && f.session.escalationTriggered == e.session.escalationTriggered
            && (forall k :: k != key ==> (k in s <==> k in slots) && (k in s ==> s[k] == slots[k]))
            && (forall k :: k != key ==> (k in f.session.state <==> k in e.session.state)
                                         && (k in f.session.state ==> f.session.state[k] == e.session.state[k]))
            && (Filled(slots, key) || NextAnswer(e.io) == "" ==> f.session == e.session && s == slots)
  {
  }

  /** `clarify_missing_slots` asks once per missing or empty slot and no more:
      it uses exactly that many scripted answers. */
  lemma {:induction false} ClarifiedAsksOncePerMissingSlot(slots: map<string, Value>, e: Env)
    ensures Clarified(slots, e).1.io == CollectN(e.io, MissingCount(slots))
    ensures Clarified(slots, e).1.log == e.log
  {
    var (s1, e1) := ClarifyKey(slots, e, "service", true);
    var (s2, e2) := ClarifyKey(s1, e1, "date", false);
    var n1 := if Filled(slots, "service") then 0 else 1;
    var n2 := if Filled(slots, "date") then 0 else 1;
    var n3 := if Filled(slots, "time") then 0 else 1;
    ClarifyKeyAsks(slots, e, "service", true);
    ClarifyKeyKeeps(slots, e, "service", true, "date");
    ClarifyKeyKeeps(slots, e, "service", true, "time");
    ClarifyKeyAsks(s1, e1, "date", false);
    ClarifyKeyKeeps(s1, e1, "date", false, "time");
    ClarifyKeyAsks(s2, e2, "time", false);
    CollectNAdd(e.io, n1, n2);
    CollectNAdd(e.io, n1 + n2, n3);
  }

  /** A clarify step uses one answer when the slot is missing or empty, none otherwise. */
  lemma ClarifyKeyAsks(slots: map<string, Value>, e: Env, key: string, title: bool)
    ensures ClarifyKey(slots, e, key, title).1.io == CollectN(e.io, if Filled(slots, key) then 0 else 1)
    ensures ClarifyKey(slots, e, key, title).1.log == e.log
  {
  }

  /** A clarify step leaves every other slot as it was. */
  lemma ClarifyKeyKeeps(slots: map<string, Value>, e: Env, key: string, title: bool, other: string)
    requires other != key
    ensures Filled(ClarifyKey(slots, e, key, title).0, other) == Filled(slots, other)
  {
  }

  lemma {:induction false} CollectNAdd(a: Script, m: nat, n: nat)
    ensures CollectN(CollectN(a, m), n) == CollectN(a, m + n)
    decreases m
  {
    if m > 0 {
      CollectNAdd(AfterCollect(a), m - 1, n);
    }
  }

  /** What `extract_and_prepare(user_input, session, io_adapter, config)`
      returns, and the call state after it. */
  function Prepared(input: string, cfg: AppConfig, e: Env): (map<string, Value>, Env) {
    var extracted := ExtractedSlots(input, ServiceNames(cfg));
    Clarified(Merged(extracted, e.session.state), e)
  }

  /** Extraction never reaches the session: a slot that extraction filled is
      not asked for, and the session's value for it stays what it was. */
  lemma PreparedKeepsExtracted(input: string, cfg: AppConfig, e: Env, k: string)
    requires Filled(ExtractedSlots(input, ServiceNames(cfg)), k)
    ensures var f := Prepared(input, cfg, e).1;
            && (k in f.session.state <==> k in e.session.state)
            && (k in f.session.state ==> f.session.state[k] == e.session.state[k])
  {
    var m := Merged(ExtractedSlots(input, ServiceNames(cfg)), e.session.state);
    assert Filled(m, k);
    var (s1, e1) := ClarifyKey(m, e, "service", true);
    var (s2, e2) := ClarifyKey(s1, e1, "date", false);
    ClarifyKeyLeaves(m, e, "service", true, k);
    ClarifyKeyLeaves(s1, e1, "date", false, k);
    ClarifyKeyLeaves(s2, e2, "time", false, k);
  }

  /** Slot maps that agree on which of service, date and time are filled. */
  predicate SameFill(a: map<string, Value>, b: map<string, Value>) {
    forall k | k in SlotKeys() :: Filled(a, k) == Filled(b, k)
  }

  /** A clarify step looks only at whether its slot is filled: from maps that
      agree on that it reaches the same call state. */
  lemma ClarifyKeySameFill(a: map<string, Value>, b: map<string, Value>, e: Env, key: string, title: bool)
    requires IsSlotKey(key) && SameFill(a, b)
    ensures SameFill(ClarifyKey(a, e, key, title).0, ClarifyKey(b, e, key, title).0)
    ensures ClarifyKey(a, e, key, title).1 == ClarifyKey(b, e, key, title).1
  {
  }

  /** The hour-only time slot never reaches the session: `extract_and_prepare`
      leaves the call in the state the intended extraction would leave it in. */
  lemma PreparedAsIntended(input: string, cfg: AppConfig, e: Env)
    ensures Prepared(input, cfg, e).1 == Clarified(Merged(IntendedSlots(input, ServiceNames(cfg)), e.session.state), e).1
  {
    var services := ServiceNames(cfg);
    TimeSlotPrefixOfText(input);
    var x := ExtractedSlots(input, services);
    var y := IntendedSlots(input, services);
    var a := Merged(x, e.session.state);
    var b := Merged(y, e.session.state);
    forall k | k in SlotKeys()
      ensures Filled(a, k) == Filled(b, k)
    {
      if k == "time" {
        assert "time" in x <==> "time" in y;
        if "time" in x {
          assert Filled(x, k) && Filled(y, k);
        }
      }
    }
    var (a1, e1) := ClarifyKey(a, e, "service", true);
    var (b1, f1) := ClarifyKey(b, e, "service", true);
    ClarifyKeySameFill(a, b, e, "service", true);
    ClarifyKeySameFill(a1, b1, e1, "date", false);
    var (a2, e2) := ClarifyKey(a1, e1, "date", false);
    var (b2, f2) := ClarifyKey(b1, e1, "date", false);
    ClarifyKeySameFill(a2, b2, e2, "time", false);
  }

  /** A clarify step leaves a filled slot filled, and the session's value for
      it as it was. */
  lemma ClarifyKeyLeaves(slots: map<string, Value>, e: Env, key: string, title: bool, k: string)
    requires Filled(slots, k)
    ensures var (s, f) := ClarifyKey(slots, e, key, title);
            && Filled(s, k)
            && (k in f.session.state <==> k in e.session.state)
            && (k in f.session.state ==> f.session.state[k] == e.session.state[k])
  {
  }

  /** A clarified answer is written under its own key and recorded as
      `clarified_<key>`: title-cased for the service, only stripped and never
      validated for the date and the time; an empty answer writes nothing. */
  lemma ClarifiedValues(slots: map<string, Value>, e: Env, key: string, title: bool)
    requires !Filled(slots, key)
    ensures var (s, f) := ClarifyKey(slots, e, key, title);
            var a := NextAnswer(e.io);
            var v := Str(if title then Title(Strip(a)) else Strip(a));
            && f.io == AfterCollect(e.io) && f.log == e.log
            && (a != "" ==> s == slots[key := v] && f.session.state == e.session.state[key := v])
            && (a != "" ==> f.session.history == e.session.history + [HistoryEntry("clarified_" + key, Str(a), Null, map[])])
            && (a == "" ==> s == slots && f.session == e.session)
  {
  }

  /** `clarify_missing_slots`, one slot: ask for `key` when it is missing or empty. */
  method AskIfMissing(slots: map<string, Value>, key: string, title: bool,
                      session: CallSession, io: ScriptedAdapter, log: EventLog)
    returns (result: map<string, Value>)
    modifies session, io
    ensures (result, Snap(session, io, log)) == ClarifyKey(slots, old(Snap(session, io, log)), key, title)
  {
    result := slots;
    if !(key in slots && Truthy(slots[key])) {
      var answer := io.Collect("");
      if answer != "" {
        var v := Str(if title then Title(Strip(answer)) else Strip(answer));
        result := result[key := v];
        session.UpdateSlot(key, v);
        session.AddHistory("clarified_" + key, Str(answer), Null, None);
      }
    }
  }

  /** `clarify_missing_slots(slots, session, io_adapter, config)`. */
  method ClarifyMissingSlots(slots: map<string, Value>, session: CallSession, io: ScriptedAdapter, log: EventLog)
    returns (result: map<string, Value>)
    modifies session, io
    ensures (result, Snap(session, io, log)) == Clarified(slots, old(Snap(session, io, log)))
  {
    result := AskIfMissing(slots, "service", true, session, io, log);
    result := AskIfMissing(result, "date", false, session, io, log);
    result := AskIfMissing(result, "time", false, session, io, log);
  }

  /** `extract_and_prepare(user_input, session, io_adapter, config)`. */
  method ExtractAndPrepare(userInput: string, cfg: AppConfig, session: CallSession, io: ScriptedAdapter, log: EventLog)
    returns (slots: map<string, Value>)
    modifies session, io
    ensures (slots, Snap(session, io, log)) == Prepared(userInput, cfg, old(Snap(session, io, log)))
  {
    var extracted := ExtractSlotsDeterministic(userInput, ServiceNames(cfg));
    slots := extracted;
    var keys := SlotKeys();
    for i := 0 to |keys|
      invariant slots == MergedUpTo(extracted, session.state, i)
    {
      var k := keys[i];
      if k in session.state && k !in slots {
        slots := slots[k := session.state[k]];
      }
    }
    assert MergedUpTo(extracted, session.state, 3) == Merged(extracted, session.state);
    slots := ClarifyMissingSlots(slots, session, io, log);
  }

  /** The merge after its first `i` keys. */
  function MergedUpTo(slots: map<string, Value>, state: map<string, Value>, i: nat): map<string, Value>
    requires i <= 3
    decreases i
  {
    if i == 0 then slots
    else
      var m := MergedUpTo(slots, state, i - 1);
      var k := SlotKeys()[i - 1];
      if k in state && k !in m then m[k := state[k]] else m
  }
}
