/** The per-call session record (`assistant/session.py`). */
module Session {
  import opened Common
  import opened Values

  /** One entry of the chronological history; the timestamp is not modelled. */
  datatype HistoryEntry = HistoryEntry(step: string, input: Value, output: Value, extra: map<string, Value>)

  /** The entry `add_history` appends: a missing or empty `extra` becomes `{}`. */
  function NewHistoryEntry(step: string, input: Value, output: Value,
                           extra: Option<map<string, Value>>): (h: HistoryEntry)
    ensures h.step == step && h.input == input && h.output == output
    ensures h.extra == if extra.Some? then extra.value else map[]
  {
    HistoryEntry(step, input, output, extra.GetOr(map[]))
  }

  /** What `to_dict()` reports, without `created_at` and `updated_at`. */
  datatype SessionDict = SessionDict(
    callId: string,
    callerNumber: string,
    mode: string,
    state: map<string, Value>,
    history: seq<HistoryEntry>,
    escalationTriggered: bool)

  /** `call_id or str(uuid.uuid4())`: a given, non-empty id is kept, otherwise the
      freshly generated one is used. */
  function ChooseCallId(callId: Option<string>, generated: string): (id: string)
    ensures callId.Some? && callId.value != "" ==> id == callId.value
    ensures callId.None? || callId.value == "" ==> id == generated
  {
    match callId
    case Some(c) => if c != "" then c else generated
    case None => generated
  }

  /** A session as `CallSession(call_id, caller_number, mode)` creates it. */
  function NewSession(callId: Option<string>, generated: string, callerNumber: string, mode: string): (d: SessionDict)
    ensures d.state == map[] && d.history == [] && !d.escalationTriggered
    ensures callId.Some? && callId.value != "" ==> d.callId == callId.value
    ensures d.callerNumber == callerNumber && d.mode == mode
  {
    SessionDict(ChooseCallId(callId, generated), callerNumber, mode, map[], [], false)
  }

  /** The record after `update_slot(key, value)`. */
  function WithSlot(d: SessionDict, key: string, value: Value): (r: SessionDict)
    ensures key in r.state && r.state[key] == value
    ensures r.state.Keys == d.state.Keys + {key}
    ensures forall k :: k in d.state && k != key ==> r.state[k] == d.state[k]
    ensures r.history == d.history && r.escalationTriggered == d.escalationTriggered
    ensures r.callId == d.callId && r.callerNumber == d.callerNumber && r.mode == d.mode
  {
    d.(state := d.state[key := value])
  }

  /** The record after `add_history(step, input, output, extra)`. */
  function WithHistory(d: SessionDict, step: string, input: Value, output: Value,
                       extra: Option<map<string, Value>>): (r: SessionDict)
    ensures |r.history| == |d.history| + 1 && r.history[..|d.history|] == d.history
    ensures r.history[|d.history|] == NewHistoryEntry(step, input, output, extra)
    ensures r.state == d.state && r.escalationTriggered == d.escalationTriggered
    ensures r.callId == d.callId && r.callerNumber == d.callerNumber && r.mode == d.mode
  {
    d.(history := d.history + [NewHistoryEntry(step, input, output, extra)])
  }

  /** Updating one slot then reading another gives what was there before. */
  lemma WithSlotOthers(d: SessionDict, key: string, value: Value, other: string)
    requires other != key
    ensures Filled(WithSlot(d, key, value).state, other) == Filled(d.state, other)
  {
  }

  class CallSession {
    var callId: string
    var callerNumber: string
    /** `"customer"` or `"debug"`. */
    var mode: string
    var state: map<string, Value>
    var history: seq<HistoryEntry>
    var escalationTriggered: bool

    /** `CallSession(call_id, caller_number, mode)`; `generatedId` stands for
        the `uuid4` drawn when no call id is given. */
    constructor (callId: Option<string>, generatedId: string, callerNumber: string := "", mode: string := "customer")
      ensures ToDict() == NewSession(callId, generatedId, callerNumber, mode)
    {
      this.callId := ChooseCallId(callId, generatedId);
      this.callerNumber := callerNumber;
      this.mode := mode;
      state := map[];
      history := [];
      escalationTriggered := false;
    }

    /** `to_dict()`: the current field values. */
    function ToDict(): (d: SessionDict)
      reads this
      ensures d.state == state && d.history == history && d.escalationTriggered == escalationTriggered
      ensures d.callId == callId
    {
      SessionDict(callId, callerNumber, mode, state, history, escalationTriggered)
    }

    /** `update_slot`: sets one key of `state`; everything else is kept. */
    method UpdateSlot(key: string, value: Value)
      modifies this
      ensures ToDict() == WithSlot(old(ToDict()), key, value)
    {
      state := state[key := value];
    }

    /** `add_history`: appends one entry; everything else is kept. */
    method AddHistory(step: string, input: Value, output: Value, extra: Option<map<string, Value>>)
      modifies this
      ensures ToDict() == WithHistory(old(ToDict()), step, input, output, extra)
    {
      history := history + [NewHistoryEntry(step, input, output, extra)];
    }
  }
}
