/**
 * FolderServiceImpl: resolves the conversation id, builds the prompt and the chat options,
 * records the user turn, calls the chat client, checks and converts its text, records the
 * assistant turn and assembles the response. Every failure leaves as a
 * FolderGenerationException with one of two fixed messages.
 */
module FolderServiceImpl {
  import opened Wrappers
  import opened JavaText
  import opened Exceptions
  import opened ChatModel
  import opened Dto
  import PromptFactory
  import GlobalExceptionHandler

  const QuotaExceeded := "Current quota was exceeded."
  const GenerationFailed := "Error during folder generation"
  const EmptyOrMalformed := "AI response was empty or malformed."
  const EmptyResponse := "AI response was empty"

  /**
   * BeanOutputConverter.convert as seen by the service: the structure, or None when the
   * converter returns null or throws.
   */
  type Converter = string -> Option<DirectoryStructure>

  /** The chat memory: each conversation's messages in the order they were added. */
  type Memory = map<string, seq<Message>>

  /** ChatMemory.get: an unseen conversation has no messages. */
  function History(memory: Memory, id: string): seq<Message>
  {
    if id in memory then memory[id] else []
  }

  /** ChatMemory.add of one message, with no window applied. */
  function Append(memory: Memory, id: string, m: Message): (r: Memory)
    ensures History(r, id) == History(memory, id) + [m]
    ensures forall other :: other != id ==> History(r, other) == History(memory, other)
  {
    memory[id := History(memory, id) + [m]]
  }

  /** The request's id when present and not blank, otherwise the freshly generated one. */
  function ResolveConversationId(requested: Option<string>, freshId: string): (id: string)
    ensures requested.Some? && !IsBlank(requested.value) ==> id == requested.value
    ensures requested.None? || IsBlank(requested.value) ==> id == freshId
  {
    if requested.None? || IsBlank(requested.value) then freshId else requested.value
  }

  /** getChatOptions: an explicit value wins; an absent or blank one leaves the default. */
  function GetChatOptions(options: Option<FolderModelOptions>): (r: ChatOptions)
    ensures r.model.Some? <==> options.Some? && options.value.model.Some? && !IsBlank(options.value.model.value)
    ensures r.model.Some? ==> r.model == options.value.model
    ensures r.temperature.Some? <==> options.Some? && options.value.temperature.Some?
    ensures r.temperature.Some? ==> r.temperature == options.value.temperature
  {
    var builder := DefaultChatOptions;
    if options.None? then builder
    else
      var withModel :=
        if options.value.model.Some? && !IsBlank(options.value.model.value)
        then builder.(model := options.value.model)
        else builder;
      if options.value.temperature.Some? then withModel.(temperature := options.value.temperature)
      else withModel
  }

  /** The converted structure together with the metadata of the response it came from. */
  datatype Parsed = Parsed(structure: DirectoryStructure, metadata: ChatMetadata)

  /**
   * What callAiModel makes of the client's outcome: the exception it threw, a failure for a
   * missing or blank text, a failure when the converter yields nothing, or the structure.
   */
  function ParseResponse(outcome: ChatOutcome, converter: Converter): (r: Result<Parsed, Throwable>)
    ensures r.Success? <==>
      && outcome.Responded? && outcome.text.Some? && !IsBlank(outcome.text.value)
      && converter(outcome.text.value).Some?
    ensures r.Success? ==> r.value == Parsed(converter(outcome.text.value).value, outcome.metadata)
    ensures outcome.Threw? ==> r == Failure(outcome.error)
    ensures outcome.Responded? && r.Failure? ==> r.error.kind == FolderGeneration
  {
    match outcome
    case Threw(e) => Failure(e)
    case Responded(text, metadata) =>
      if text.None? || IsBlank(text.value) then
        Failure(Throwable(FolderGeneration, Some(EmptyOrMalformed), Some(Throwable(NullPointer, None, None))))
      else
        match converter(text.value)
        case None => Failure(Throwable(FolderGeneration, Some(EmptyResponse), Some(Throwable(PlainException, None, None))))
        case Some(structure) => Success(Parsed(structure, metadata))
  }

  /** The FolderResponse for a converted structure: structure, id, model and all three token counts. */
  function ToResponse(p: Parsed, conversationId: string): (r: FolderResponse)
    ensures r.directoryStructure == p.structure && r.conversationId == conversationId
    ensures r.metaData.model == p.metadata.model
    ensures r.metaData.usage.promptTokens == p.metadata.usage.promptTokens
    ensures r.metaData.usage.generationTokens == p.metadata.usage.completionTokens
    ensures r.metaData.usage.totalTokens == p.metadata.usage.totalTokens
  {
    FolderResponse(p.structure, conversationId,
      FolderMetaData(p.metadata.model,
        FolderUsage(p.metadata.usage.promptTokens, p.metadata.usage.completionTokens, p.metadata.usage.totalTokens)))
  }

  /** The catch block of generateProjectDirectory: quota failures apart, everything else generic. */
  function Classify(e: Throwable): (r: Throwable)
    ensures r.kind == FolderGeneration && r.cause == Some(e)
    ensures r.message == Some(QuotaExceeded) || r.message == Some(GenerationFailed)
    ensures r.message == Some(QuotaExceeded) <==> e.kind == NonTransientAi
  {
    if e.kind == NonTransientAi then Throwable(FolderGeneration, Some(QuotaExceeded), Some(e))
    else Throwable(FolderGeneration, Some(GenerationFailed), Some(e))
  }

  /** The result of one call together with the chat memory it leaves behind. */
  datatype Turn = Turn(result: Result<FolderResponse, Throwable>, memory: Memory)

  /**
   * callAiModel as a function of the memory before it. The user turn is recorded before the
   * client is called, so the client sees it; the assistant turn is recorded only after a
   * successful conversion; no other conversation changes.
   */
  function CallTurn(memory: Memory, prompt: Prompt, chatOptions: ChatOptions, conversationId: string,
                    chatClient: ChatClient, converter: Converter): (t: Turn)
    ensures var outcome := chatClient(prompt, chatOptions, conversationId,
                                      History(memory, conversationId) + [UserMessageOf(prompt)]);
      && (t.result.Success? <==> ParseResponse(outcome, converter).Success?)
      && (t.result.Failure? ==> t.result == Failure(ParseResponse(outcome, converter).error))
    ensures t.result.Failure? ==> History(t.memory, conversationId) == History(memory, conversationId) + [UserMessageOf(prompt)]
    ensures t.result.Success? ==>
      && t.result.value.conversationId == conversationId
      && History(t.memory, conversationId) ==
           History(memory, conversationId) + [UserMessageOf(prompt), Message(Assistant, t.result.value.directoryStructure.tree)]
    ensures forall other :: other != conversationId ==> History(t.memory, other) == History(memory, other)
  {
    var withUser := Append(memory, conversationId, UserMessageOf(prompt));
    var outcome := chatClient(prompt, chatOptions, conversationId, History(withUser, conversationId));
    match ParseResponse(outcome, converter)
    case Failure(e) => Turn(Failure(e), withUser)
    case Success(p) =>
      Turn(Success(ToResponse(p, conversationId)),
           Append(withUser, conversationId, Message(Assistant, p.structure.tree)))
  }

  /**
   * generateProjectDirectory as a function of the memory before it: a prompt failure touches
   * no memory; otherwise the memory is what callAiModel leaves, its success is returned as is
   * and its failure is reclassified.
   */
  function GenerateTurn(factory: PromptFactory.Factory, memory: Memory, request: FolderRequest,
                        freshId: string, formatInstructions: string,
                        chatClient: ChatClient, converter: Converter): (t: Turn)
    ensures var built := PromptFactory.CreateStructurePrompt(factory, request.prompt, formatInstructions);
      && (built.Failure? ==> t == Turn(Failure(Classify(built.error)), memory))
      && (built.Success? ==>
            var call := CallTurn(memory, built.value, GetChatOptions(request.chatOptions),
                                 ResolveConversationId(request.conversationId, freshId), chatClient, converter);
            && t.memory == call.memory
            && (call.result.Success? ==> t.result == call.result)
            && (call.result.Failure? ==> t.result == Failure(Classify(call.result.error))))
  {
    var conversationId := ResolveConversationId(request.conversationId, freshId);
    match PromptFactory.CreateStructurePrompt(factory, request.prompt, formatInstructions)
    case Failure(e) => Turn(Failure(Classify(e)), memory)
    case Success(prompt) =>
      var t := CallTurn(memory, prompt, GetChatOptions(request.chatOptions), conversationId, chatClient, converter);
      match t.result
      case Success(_) => t
      case Failure(e) => Turn(Failure(Classify(e)), t.memory)
  }

  /** What the chat client answers for a built prompt, after the user turn was recorded. */
  function ClientOutcome(memory: Memory, prompt: Prompt, request: FolderRequest, conversationId: string,
                         chatClient: ChatClient): ChatOutcome
  {
    chatClient(prompt, GetChatOptions(request.chatOptions), conversationId,
      History(memory, conversationId) + [UserMessageOf(prompt)])
  }

  /** The user turn recorded for a structure prompt is its rendered user template. */
  lemma UserTurnIsUserTemplate(factory: PromptFactory.Factory, userPrompt: string, formatInstructions: string)
    requires PromptFactory.CreateStructurePrompt(factory, userPrompt, formatInstructions).Success?
    ensures var prompt := PromptFactory.CreateStructurePrompt(factory, userPrompt, formatInstructions).value;
      UserMessageOf(prompt) == prompt.instructions[1]
  {
  }

  /** Every failure is a FolderGenerationException carrying one of the two user-facing messages. */
  lemma FailuresCollapse(factory: PromptFactory.Factory, memory: Memory, request: FolderRequest,
                         freshId: string, formatInstructions: string,
                         chatClient: ChatClient, converter: Converter)
    ensures var t := GenerateTurn(factory, memory, request, freshId, formatInstructions, chatClient, converter);
      t.result.Failure? ==>
        && t.result.error.kind == FolderGeneration && t.result.error.cause.Some?
        && (t.result.error.message == Some(QuotaExceeded) || t.result.error.message == Some(GenerationFailed))
  {
  }

  /**
   * The quota message is reported exactly when the prompt was built and the chat client threw
   * a NonTransientAiException; prompt and empty-output failures get the generic message.
   */
  lemma QuotaOnlyFromClient(factory: PromptFactory.Factory, memory: Memory, request: FolderRequest,
                            freshId: string, formatInstructions: string,
                            chatClient: ChatClient, converter: Converter)
    ensures var t := GenerateTurn(factory, memory, request, freshId, formatInstructions, chatClient, converter);
      var built := PromptFactory.CreateStructurePrompt(factory, request.prompt, formatInstructions);
      var id := ResolveConversationId(request.conversationId, freshId);
      (t.result.Failure? && t.result.error.message == Some(QuotaExceeded)) <==>
        && built.Success?
        && ClientOutcome(memory, built.value, request, id, chatClient).Threw?
        && ClientOutcome(memory, built.value, request, id, chatClient).error.kind == NonTransientAi
  {
  }

  /**
   * No failure records an assistant turn: a prompt that cannot be built leaves the memory as
   * it was, and any later failure leaves exactly the user turn added.
   */
  lemma NoAssistantTurnOnFailure(factory: PromptFactory.Factory, memory: Memory, request: FolderRequest,
                                 freshId: string, formatInstructions: string,
                                 chatClient: ChatClient, converter: Converter)
    ensures var t := GenerateTurn(factory, memory, request, freshId, formatInstructions, chatClient, converter);
      var built := PromptFactory.CreateStructurePrompt(factory, request.prompt, formatInstructions);
      var id := ResolveConversationId(request.conversationId, freshId);
      t.result.Failure? ==>
        if built.Failure? then t.memory == memory
        else History(t.memory, id) == History(memory, id) + [built.value.instructions[1]]
  {
  }

  /**
   * A success records the user turn and then one assistant turn holding the converted tree,
   * and answers with the converted structure unchanged, the resolved id and the metadata of
   * the client's response.
   */
  lemma SuccessRecordsBothTurns(factory: PromptFactory.Factory, memory: Memory, request: FolderRequest,
                                freshId: string, formatInstructions: string,
                                chatClient: ChatClient, converter: Converter)
    ensures var t := GenerateTurn(factory, memory, request, freshId, formatInstructions, chatClient, converter);
      var built := PromptFactory.CreateStructurePrompt(factory, request.prompt, formatInstructions);
      var id := ResolveConversationId(request.conversationId, freshId);
      t.result.Success? ==>
        && built.Success?
        && var outcome := ClientOutcome(memory, built.value, request, id, chatClient);
        && var response := t.result.value;
        && outcome.Responded? && outcome.text.Some? && !IsBlank(outcome.text.value)
        && converter(outcome.text.value) == Some(response.directoryStructure)
        && response.conversationId == id
        && response.metaData.model == outcome.metadata.model
        && response.metaData.usage.promptTokens == outcome.metadata.usage.promptTokens
        && response.metaData.usage.generationTokens == outcome.metadata.usage.completionTokens
        && response.metaData.usage.totalTokens == outcome.metadata.usage.totalTokens
        && History(t.memory, id) ==
             History(memory, id) + [built.value.instructions[1], Message(Assistant, response.directoryStructure.tree)]
  {
  }

  /** Only the resolved conversation's history can change. */
  lemma OtherConversationsUntouched(factory: PromptFactory.Factory, memory: Memory, request: FolderRequest,
                                    freshId: string, formatInstructions: string,
                                    chatClient: ChatClient, converter: Converter, other: string)
    requires other != ResolveConversationId(request.conversationId, freshId)
    ensures var t := GenerateTurn(factory, memory, request, freshId, formatInstructions, chatClient, converter);
      History(t.memory, other) == History(memory, other)
  {
  }

  /**
   * A request without an id in a conversation not seen before: on success its memory holds
   * exactly the user and the assistant turn; when the client's text is missing, blank or not
   * convertible, it holds the user turn alone.
   */
  lemma FreshConversation(factory: PromptFactory.Factory, memory: Memory, request: FolderRequest,
                          freshId: string, formatInstructions: string,
                          chatClient: ChatClient, converter: Converter)
    requires request.conversationId.None? && freshId !in memory
    requires PromptFactory.CreateStructurePrompt(factory, request.prompt, formatInstructions).Success?
    ensures var t := GenerateTurn(factory, memory, request, freshId, formatInstructions, chatClient, converter);
      && (t.result.Success? ==> |History(t.memory, freshId)| == 2)
      && (t.result.Failure? ==> |History(t.memory, freshId)| == 1)
      && (t.result.Success? ==> t.result.value.conversationId == freshId)
  {
  }

  /**
   * Whatever goes wrong, the client sees status 500 with the label "Folder Generation Failed":
   * a PromptGenerationException from the factory never reaches its own 404 handler.
   */
  lemma FailuresReachClientAs500(factory: PromptFactory.Factory, memory: Memory, request: FolderRequest,
                                 freshId: string, formatInstructions: string,
                                 chatClient: ChatClient, converter: Converter,
                                 now: GlobalExceptionHandler.LocalDateTime)
    ensures var t := GenerateTurn(factory, memory, request, freshId, formatInstructions, chatClient, converter);
      t.result.Failure? ==>
        var response := GlobalExceptionHandler.Handle(t.result.error, now);
        && response.Some? && response.value.statusCode == GlobalExceptionHandler.InternalServerError
        && response.value.body.status == 500
        && response.value.body.error == GlobalExceptionHandler.FolderGenerationFailed
        && (response.value.body.message == Some(QuotaExceeded) || response.value.body.message == Some(GenerationFailed))
  {
  }

  /** The service: the prompt factory it was built with and the shared chat memory. */
  class FolderService {
    const promptFactory: PromptFactory.Factory
    var chatMemory: Memory

    constructor (promptFactory: PromptFactory.Factory)
      ensures this.promptFactory == promptFactory && chatMemory == map[]
    {
      this.promptFactory := promptFactory;
      chatMemory := map[];
    }

    /** chatMemory.add(conversationId, message) */
    method AddToMemory(conversationId: string, message: Message)
      modifies this
      ensures chatMemory == Append(old(chatMemory), conversationId, message)
    {
      chatMemory := chatMemory[conversationId := History(chatMemory, conversationId) + [message]];
    }

    method GenerateProjectDirectory(request: FolderRequest, freshId: string, formatInstructions: string,
                                    chatClient: ChatClient, converter: Converter)
      returns (r: Result<FolderResponse, Throwable>)
      modifies this
      ensures Turn(r, chatMemory) ==
        GenerateTurn(promptFactory, old(chatMemory), request, freshId, formatInstructions, chatClient, converter)
    {
      var conversationId := ResolveConversationId(request.conversationId, freshId);
      var prompt := PromptFactory.CreateStructurePrompt(promptFactory, request.prompt, formatInstructions);
      if prompt.Failure? {
        return Failure(Classify(prompt.error));
      }
      r := CallAiModel(prompt.value, GetChatOptions(request.chatOptions), conversationId, chatClient, converter);
      if r.Failure? {
        r := Failure(Classify(r.error));
      }
    }

    method CallAiModel(prompt: Prompt, chatOptions: ChatOptions, conversationId: string,
                       chatClient: ChatClient, converter: Converter)
      returns (r: Result<FolderResponse, Throwable>)
      modifies this
      ensures Turn(r, chatMemory) ==
        CallTurn(old(chatMemory), prompt, chatOptions, conversationId, chatClient, converter)
    {
      AddToMemory(conversationId, UserMessageOf(prompt));
      var rawResponse := chatClient(prompt, chatOptions, conversationId, History(chatMemory, conversationId));
      if rawResponse.Threw? {
        return Failure(rawResponse.error);
      }
      if rawResponse.text.None? || IsBlank(rawResponse.text.value) {
        return Failure(Throwable(FolderGeneration, Some(EmptyOrMalformed), Some(Throwable(NullPointer, None, None))));
      }
      var parsedData := converter(rawResponse.text.value);
      if parsedData.None? {
        return Failure(Throwable(FolderGeneration, Some(EmptyResponse), Some(Throwable(PlainException, None, None))));
      }
      AddToMemory(conversationId, Message(Assistant, parsedData.value.tree));
      r := Success(ToResponse(Parsed(parsedData.value, rawResponse.metadata), conversationId));
    }
  }
}
