/** Hand-off to a human (`assistant/escalation.py`). */
module Escalation {
  import opened Common
  import opened Values
  import opened Session
  import opened StructuredLogger
  import opened Conversation

  /** `escalation_message()`. Long texts in this model are written as
      concatenations of short literals; the string is the same. */
  function EscalationMessage(): string {
    "I'm having " + "trouble " + "completing that " + "booking. I can " + "transfer you to " + "a human staff " + "member for help."
  }

  /** The payload `mark_and_log` logs: `{"reason": reason}` updated with `extra`,
      so a `"reason"` key in `extra` wins. */
  function EscalationPayload(reason: string, extra: Option<map<string, Value>>): (p: map<string, Value>)
    ensures extra.None? ==> p == map["reason" := Str(reason)]
    ensures extra.Some? ==> p.Keys == extra.value.Keys + {"reason"}
    ensures extra.Some? ==> forall k :: k in extra.value ==> p[k] == extra.value[k]
    ensures "reason" in p && p["reason"] == (if extra.Some? && "reason" in extra.value then extra.value["reason"] else Str(reason))
  {
    map["reason" := Str(reason)] + extra.GetOr(map[])
  }

  /** The session record after `mark_and_log`: only the flag changes. */
  function MarkedSession(d: SessionDict): (r: SessionDict)
    ensures r.escalationTriggered
    ensures r.state == d.state && r.history == d.history
    ensures r.callId == d.callId && r.callerNumber == d.callerNumber && r.mode == d.mode
  {
    d.(escalationTriggered := true)
  }

  /** The log entry `mark_and_log` appends. */
  function EscalationEntry(callId: string, reason: string, extra: Option<map<string, Value>>): (e: LogEntry)
    ensures e.callId == callId && e.step == "escalation" && e.outcome == "ok"
    ensures e.input == Null && e.output == Null && e.extra == EscalationPayload(reason, extra)
  {
    Event(callId, "escalation", Null, Null, Some(EscalationPayload(reason, extra)))
  }

  /** The call state after `mark_and_log(session, reason, extra)`. */
  function Escalated(e: Env, reason: string, extra: Option<map<string, Value>>): Env {
    Env(MarkedSession(e.session), e.io, e.log + [EscalationEntry(e.session.callId, reason, extra)])
  }

  /** Escalating sets the flag, keeps state, history and the adapter, and logs
      one `"escalation"` entry; escalating again keeps the flag set. */
  lemma EscalatedEffect(e: Env, reason: string, extra: Option<map<string, Value>>, reason2: string)
    ensures var f := Escalated(e, reason, extra);
            && f.session.escalationTriggered
            && f.session.state == e.session.state && f.session.history == e.session.history
            && f.io == e.io
            && |f.log| == |e.log| + 1 && f.log[..|e.log|] == e.log
            && f.log[|e.log|].step == "escalation"
            && f.log[|e.log|].extra["reason"] == (if extra.Some? && "reason" in extra.value then extra.value["reason"] else Str(reason))
    ensures Escalated(Escalated(e, reason, extra), reason2, None).session.escalationTriggered
  {
  }

  /** `mark_and_log(session, reason, extra)`. */
  method MarkAndLog(session: CallSession, log: EventLog, reason: string, extra: Option<map<string, Value>>)
    modifies session, log
    ensures session.ToDict() == MarkedSession(old(session.ToDict()))
    ensures log.calls == old(log.calls) + [EscalationEntry(old(session.callId), reason, extra)]
  {
    session.escalationTriggered := true;
    var payload := map["reason" := Str(reason)];
    if extra.Some? && extra.value != map[] {
      payload := payload + extra.value;
    }
    assert payload == EscalationPayload(reason, extra);
    log.LogEvent(session.callId, "escalation", Null, Null, "ok", Some(payload));
  }
}
