/** The append-only structured event log and phone-number redaction
    (`utils/structured_logger.py`). The log file is modelled by the list of
    entries under its `"calls"` key. */
module StructuredLogger {
  import opened Common
  import opened Values

  /** One logged event; the UTC timestamp is not modelled. */
  datatype LogEntry = LogEntry(
    callId: string,
    step: string,
    input: Value,
    output: Value,
    outcome: string,
    extra: map<string, Value>)

  /** The entry `log_event` appends: a missing or empty `extra` becomes `{}`. */
  function NewEntry(callId: string, step: string, input: Value, output: Value, outcome: string,
                    extra: Option<map<string, Value>>): (e: LogEntry)
    ensures e.callId == callId && e.step == step && e.input == input && e.output == output
    ensures e.outcome == outcome
    ensures extra.None? ==> e.extra == map[]
    ensures extra.Some? ==> e.extra == extra.value
  {
    LogEntry(callId, step, input, output, outcome, extra.GetOr(map[]))
  }

  /** `log_event(call_id, step, input_data, output_data)` with the default
      outcome `"ok"` and no `extra`. */
  function Event(callId: string, step: string, input: Value, output: Value,
                 extra: Option<map<string, Value>>): LogEntry
  {
    NewEntry(callId, step, input, output, "ok", extra)
  }

  /** What `_load` finds: no file, a file that is not valid JSON, or a decoded
      object whose `"calls"` key may be missing. */
  datatype Store = Missing | Undecodable | Decoded(calls: Option<seq<LogEntry>>)

  /** The `"calls"` list the first `log_event` appends to:
      `_load()` followed by `setdefault("calls", [])`. */
  function LoadedCalls(store: Store): (calls: seq<LogEntry>)
    ensures store.Missing? || store.Undecodable? ==> calls == []
    ensures store.Decoded? && store.calls.None? ==> calls == []
    ensures store.Decoded? && store.calls.Some? ==> calls == store.calls.value
  {
    match store
    case Decoded(Some(c)) => c
    case _ => []
  }

  /** The log as `log_event` sees it from one call to the next: every call
      loads what the previous one saved, so the entries only grow. */
  class EventLog {
    var calls: seq<LogEntry>

    constructor Open(store: Store)
      ensures calls == LoadedCalls(store)
    {
      calls := LoadedCalls(store);
    }

    /** `log_event`: appends exactly one entry and keeps the earlier ones. */
    method LogEvent(callId: string, step: string, input: Value, output: Value, outcome: string,
                    extra: Option<map<string, Value>>)
      modifies this
      ensures calls == old(calls) + [NewEntry(callId, step, input, output, outcome, extra)]
    {
      calls := calls + [NewEntry(callId, step, input, output, outcome, extra)];
    }
  }

  const Mask: string := "***-***-"

  /** `redact_phone`: all but the last four characters hidden behind a fixed mask;
      shorter numbers are returned as they are. */
  function RedactPhone(number: string): (r: string)
    ensures |number| >= 4 ==> |r| == 12 && r[..8] == Mask && r[8..] == number[|number| - 4..]
    ensures |number| < 4 ==> r == number
  {
    if |number| >= 4 then Mask + number[|number| - 4..] else number
  }

  /** Redacting a redacted number changes nothing. */
  lemma RedactPhoneIdempotent(number: string)
    ensures RedactPhone(RedactPhone(number)) == RedactPhone(number)
  {
    var r := RedactPhone(number);
    if |number| >= 4 {
      assert r == r[..8] + r[8..];
    }
  }
}
