/** The input/output adapter as the scripted adapter of the test suite
    (`StubAdapter` in `test/test_non_llm_flow.py`): `collect` hands out the
    next scripted answer, or `""` once the script is used up; `prompt`
    records every message. The text passed to `collect` is not kept. */
module IoAdapter {

  datatype Script = Script(responses: seq<string>, idx: nat, prompts: seq<string>)

  /** The answer the next `collect` returns. */
  function NextAnswer(a: Script): (r: string)
    ensures a.idx < |a.responses| ==> r == a.responses[a.idx]
    ensures a.idx >= |a.responses| ==> r == ""
  {
    if a.idx < |a.responses| then a.responses[a.idx] else ""
  }

  /** The adapter after one `collect`: one answer used, unless none is left. */
  function AfterCollect(a: Script): (b: Script)
    ensures b.responses == a.responses && b.prompts == a.prompts
    ensures b.idx == if a.idx < |a.responses| then a.idx + 1 else a.idx
  {
    if a.idx < |a.responses| then a.(idx := a.idx + 1) else a
  }

  /** The adapter after `prompt(message)`. */
  function AfterPrompt(a: Script, message: string): (b: Script)
    ensures b.responses == a.responses && b.idx == a.idx
    ensures b.prompts == a.prompts + [message]
  {
    a.(prompts := a.prompts + [message])
  }

  /** The `k`-th answer from now, counting from 0. */
  function AnswerAt(a: Script, k: nat): string {
    if a.idx + k < |a.responses| then a.responses[a.idx + k] else ""
  }

  /** The adapter after `k` calls of `collect`. */
  function CollectN(a: Script, k: nat): Script
    decreases k
  {
    if k == 0 then a else CollectN(AfterCollect(a), k - 1)
  }

  /** `collect` hands out the scripted answers in order, then empty strings. */
  lemma {:induction false} CollectInOrder(a: Script, k: nat)
    ensures NextAnswer(CollectN(a, k)) == AnswerAt(a, k)
    ensures CollectN(a, k).prompts == a.prompts && CollectN(a, k).responses == a.responses
    ensures CollectN(a, k).idx == if a.idx + k <= |a.responses| then a.idx + k
                                   else if a.idx <= |a.responses| then |a.responses| else a.idx
    decreases k
  {
    if k > 0 {
      CollectInOrder(AfterCollect(a), k - 1);
    }
  }

  class ScriptedAdapter {
    var responses: seq<string>
    var idx: nat
    var prompts: seq<string>

    constructor (responses: seq<string>)
      ensures State() == Script(responses, 0, [])
    {
      this.responses := responses;
      idx := 0;
      prompts := [];
    }

    function State(): Script
      reads this
    {
      Script(responses, idx, prompts)
    }

    /** `collect(prompt_text)`. */
    method Collect(promptText: string) returns (answer: string)
      modifies this
      ensures answer == NextAnswer(old(State()))
      ensures State() == AfterCollect(old(State()))
    {
      if idx < |responses| {
        answer := responses[idx];
        idx := idx + 1;
      } else {
        answer := "";
      }
    }

    /** `prompt(message)`. */
    method Prompt(message: string)
      modifies this
      ensures State() == AfterPrompt(old(State()), message)
    {
      prompts := prompts + [message];
    }
  }
}
