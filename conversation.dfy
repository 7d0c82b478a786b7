/** The observable state of one call as the assistant changes it: the session
    record, the scripted adapter and the event log, with one function per kind
    of step. The imperative code is proved to move this state exactly as these
    functions say. */
module Conversation {
  import opened Common
  import opened Values
  import opened Session
  import opened StructuredLogger
  import opened IoAdapter

  datatype Env = Env(session: SessionDict, io: Script, log: seq<LogEntry>)

  /** What a call hands back: the reply string, or an exception that escapes. */
  datatype Reply = Said(text: string) | Raised(error: string)

  /** `io_adapter.prompt(message)`. */
  function Prompted(e: Env, message: string): Env {
    e.(io := AfterPrompt(e.io, message))
  }

  /** The state after `io_adapter.collect(...)`; the answer is `NextAnswer(e.io)`. */
  function Collected(e: Env): Env {
    e.(io := AfterCollect(e.io))
  }

  /** `log_event(session.call_id, step, input, output, extra=extra)`. */
  function Logged(e: Env, step: string, input: Value, output: Value, extra: Option<map<string, Value>>): Env {
    e.(log := e.log + [Event(e.session.callId, step, input, output, extra)])
  }

  /** `session.add_history(step, input, output, extra)`. */
  function Recorded(e: Env, step: string, input: Value, output: Value, extra: Option<map<string, Value>>): Env {
    e.(session := WithHistory(e.session, step, input, output, extra))
  }

  /** `session.update_slot(key, value)`. */
  function Updated(e: Env, key: string, value: Value): Env {
    e.(session := WithSlot(e.session, key, value))
  }

  /** The state held by the three objects. */
  function Snap(s: CallSession, io: ScriptedAdapter, log: EventLog): Env
    reads s, io, log
  {
    Env(s.ToDict(), io.State(), log.calls)
  }
}
