/**
  Prompt assembly (app/routes.py, prepare_messages): the message list sent to the
  model server is the fixed system instruction, then at most the ten latest
  history exchanges as user/assistant pairs, then the current prompt.
*/
module Prompt {

  datatype Role = System | User | Assistant

  /** One chat message, `{"role": ..., "content": ...}`. */
  datatype Message = Message(role: Role, content: string)

  /** One exchange of the history handed to the assembler, `{"user": ..., "ai": ...}`. */
  datatype Exchange = Exchange(user: string, ai: string)

  /** The tone directive that opens every prompt. */
  const SystemPrompt: string := "Отвечай просто, без формальностей, можно на \"ты\". Поддерживай Markdown."

  /** How many history exchanges one prompt carries at most. */
  const ContextLimit: nat := 10

  function SystemMessage(): Message
  {
    Message(System, SystemPrompt)
  }

  /** Python's `s[-n:]` for a positive `n`: the last `n` elements, or all of `s` when it is shorter. */
  function LastAtMost<T>(s: seq<T>, n: nat): (r: seq<T>)
    requires 0 < n
    ensures |r| == if |s| <= n then |s| else n
    ensures forall k :: |s| - |r| <= k < |s| ==> r[k - (|s| - |r|)] == s[k]
  {
    if |s| <= n then s else s[|s| - n..]
  }

  /** Each exchange, in order, as its user message followed by its assistant message. */
  function Expand(exchanges: seq<Exchange>): seq<Message>
  {
    if exchanges == [] then []
    else
      var last := exchanges[|exchanges| - 1];
      Expand(exchanges[..|exchanges| - 1]) + [Message(User, last.user), Message(Assistant, last.ai)]
  }

  /** The message list `prepare_messages(prompt, history)` returns. */
  function PromptMessages(prompt: string, history: seq<Exchange>): seq<Message>
  {
    [SystemMessage()] + Expand(LastAtMost(history, ContextLimit)) + [Message(User, prompt)]
  }

  /** Exchange k of the list sits at positions 2k and 2k+1 of its expansion. */
  lemma {:induction false} ExpandShape(exchanges: seq<Exchange>)
    ensures |Expand(exchanges)| == 2 * |exchanges|
    ensures forall k :: 0 <= k < |exchanges| ==>
      && Expand(exchanges)[2 * k] == Message(User, exchanges[k].user)
      && Expand(exchanges)[2 * k + 1] == Message(Assistant, exchanges[k].ai)
  {
    if exchanges != [] {
      var init := exchanges[..|exchanges| - 1];
      ExpandShape(init);
      forall k | 0 <= k < |init|
        ensures Expand(exchanges)[2 * k] == Message(User, exchanges[k].user)
        ensures Expand(exchanges)[2 * k + 1] == Message(Assistant, exchanges[k].ai)
      {
        assert exchanges[k] == init[k];
      }
    }
  }

  /** The frame of every prompt: its length, the system instruction first, the current prompt last. */
  lemma PromptFrame(prompt: string, history: seq<Exchange>)
    ensures var m := PromptMessages(prompt, history);
      && |m| == 1 + 2 * (if |history| <= ContextLimit then |history| else ContextLimit) + 1
      && m[0] == SystemMessage()
      && m[|m| - 1] == Message(User, prompt)
  {
    ExpandShape(LastAtMost(history, ContextLimit));
  }

  /**
    Which history entries a prompt carries: entry j of the last ten (the last
    min(|history|, 10) entries, in their order) contributes its user message at
    position 1 + 2(j - start) and its assistant message right after it.
  */
  lemma PromptCarriesWindow(prompt: string, history: seq<Exchange>, j: int)
    requires var kept := if |history| <= ContextLimit then |history| else ContextLimit;
      |history| - kept <= j < |history|
    ensures var start := |history| - (if |history| <= ContextLimit then |history| else ContextLimit);
      var m := PromptMessages(prompt, history);
      && 2 + 2 * (j - start) < |m|
      && m[1 + 2 * (j - start)] == Message(User, history[j].user)
      && m[2 + 2 * (j - start)] == Message(Assistant, history[j].ai)
  {
    var window := LastAtMost(history, ContextLimit);
    var body := Expand(window);
    ExpandShape(window);
    var k := j - (|history| - |window|);
    assert window[k] == history[j];
    var m := PromptMessages(prompt, history);
    assert m == [SystemMessage()] + body + [Message(User, prompt)];
    assert m[1 + 2 * k] == body[2 * k];
    assert m[2 + 2 * k] == body[2 * k + 1];
  }

  /** prepare_messages: builds the list by appending, as the source does. */
  method PrepareMessages(prompt: string, history: seq<Exchange>) returns (messages: seq<Message>)
    ensures messages == PromptMessages(prompt, history)
  {
    messages := [SystemMessage()];
    var window := LastAtMost(history, ContextLimit);
    for i := 0 to |window|
      invariant messages == [SystemMessage()] + Expand(window[..i])
    {
      assert window[..i + 1][..i] == window[..i];
      messages := messages + [Message(User, window[i].user)];
      messages := messages + [Message(Assistant, window[i].ai)];
    }
    assert window[..|window|] == window;
    messages := messages + [Message(User, prompt)];
  }
}
