/**
 * The call to the chat-completions service (src/utils/gptService.js).  The
 * service is a function from the message list to its reply.
 */
module GptService {
  import opened Wrappers
  import opened UserModel

  /** `response.data.choices`, each choice reduced to its `message.content`; `None` for a null content. */
  datatype OracleReply =
    | Replied(choices: seq<Option<string>>)
    | RequestFailed

  const Apology := "Извините, произошла ошибка при обработке вашего запроса."

  /** `[{system, prompt}, ...history, {user, text}]`. */
  function BuildMessages(text: string, history: seq<ChatMessage>, prompt: string): (ms: seq<ChatMessage>)
    ensures |ms| == |history| + 2
    ensures ms[0] == ChatMessage("system", prompt)
    ensures forall i :: 0 <= i < |history| ==> ms[i + 1] == history[i]
    ensures ms[|ms| - 1] == ChatMessage("user", text)
  {
    [ChatMessage("system", prompt)] + history + [ChatMessage("user", text)]
  }

  /**
   * `gptResponse(text, lastMessages, prompt)`: the first choice's content, or
   * the apology when the request fails or the reply has no choice.  `None` is a
   * `null` content, which the function passes through.
   */
  function GptResponse(text: string, history: seq<ChatMessage>, prompt: string,
                       oracle: seq<ChatMessage> -> OracleReply): (answer: Option<string>)
    ensures var reply := oracle(BuildMessages(text, history, prompt));
            (answer == Some(Apology) || (reply.Replied? && |reply.choices| > 0 && answer == reply.choices[0]))
            && (reply.RequestFailed? ==> answer == Some(Apology))
            && (reply.Replied? && |reply.choices| > 0 ==> answer == reply.choices[0])
            && (answer.None? ==> reply.Replied? && |reply.choices| > 0 && reply.choices[0].None?)
  {
    match oracle(BuildMessages(text, history, prompt))
    case Replied(choices) => if |choices| > 0 then choices[0] else Some(Apology)
    case RequestFailed => Some(Apology)
  }

  /** The service sees the whole conversation: the message list determines the prompt, the history and the text. */
  lemma ServiceSeesWholeConversation(text: string, history: seq<ChatMessage>, prompt: string,
                                     text': string, history': seq<ChatMessage>, prompt': string)
    requires BuildMessages(text, history, prompt) == BuildMessages(text', history', prompt')
    ensures text == text' && history == history' && prompt == prompt'
  {
    var ms := BuildMessages(text, history, prompt);
    assert |history| == |history'|;
    assert ms[|ms| - 1] == ChatMessage("user", text) == ChatMessage("user", text');
    forall i | 0 <= i < |history| ensures history[i] == history'[i] {
      assert ms[i + 1] == history[i] && ms[i + 1] == history'[i];
    }
  }
}
