/**
 * The Spring AI value types the services exchange with the chat backend, reduced to the
 * fields the services read.
 */
module ChatModel {
  import opened Wrappers
  import opened Exceptions

  datatype MessageType = User | Assistant | SystemRole

  /** A chat message: its role and its text. */
  datatype Message = Message(role: MessageType, text: string)

  /** The ordered messages sent to the model in one call. */
  datatype Prompt = Prompt(instructions: seq<Message>)

  /** A java.lang.Double kept as its IEEE-754 bits: the services only test it for null. */
  datatype Temperature = Temperature(bits: bv64)

  /** ChatOptions as built by ChatOptions.builder(): None leaves the backend default. */
  datatype ChatOptions = ChatOptions(model: Option<string>, temperature: Option<Temperature>)

  const DefaultChatOptions := ChatOptions(None, None)

  /** Token counts as reported by the provider (nullable Integers, passed through). */
  datatype Usage = Usage(promptTokens: Option<int>, completionTokens: Option<int>, totalTokens: Option<int>)

  datatype ChatMetadata = ChatMetadata(model: string, usage: Usage)

  /**
   * What one call of the chat client yields: a response whose first generation's text may be
   * missing (a null response, result, output or text), or an exception.
   */
  datatype ChatOutcome =
    | Responded(text: Option<string>, metadata: ChatMetadata)
    | Threw(error: Throwable)

  /**
   * The chat client as seen by the services: given the prompt, the options, the conversation
   * id and that conversation's history as the memory advisor reads it, the call's outcome.
   */
  type ChatClient = (Prompt, ChatOptions, string, seq<Message>) -> ChatOutcome

  /** The position of the last user-role message, if any. */
  function LastUserIndex(messages: seq<Message>): (r: Option<nat>)
    ensures r.Some? ==> r.value < |messages| && messages[r.value].role == User
    ensures r.Some? ==> forall j :: r.value < j < |messages| ==> messages[j].role != User
    ensures r.None? ==> forall j :: 0 <= j < |messages| ==> messages[j].role != User
    decreases |messages|
  {
    if |messages| == 0 then None
    else if messages[|messages| - 1].role == User then Some(|messages| - 1)
    else LastUserIndex(messages[..|messages| - 1])
  }

  /** Prompt.getUserMessage: the last user-role message, or an empty user message. */
  function UserMessageOf(p: Prompt): (m: Message)
    ensures m.role == User
    ensures m in p.instructions || m == Message(User, "")
    ensures LastUserIndex(p.instructions).None? ==> m == Message(User, "")
    ensures LastUserIndex(p.instructions).Some? ==> m == p.instructions[LastUserIndex(p.instructions).value]
  {
    match LastUserIndex(p.instructions)
    case Some(i) => p.instructions[i]
    case None => Message(User, "")
  }
}
