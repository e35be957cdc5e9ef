# folder-ai request pipeline in Dafny

A model of the backend core of folder-ai, the service that turns a natural-language project
description into a directory tree produced by a chat model while keeping per-conversation
memory. Four parts of the Java backend are modelled, with every Spring AI, Jackson and
servlet collaborator replaced by an input:

- **FolderServiceImpl** (`folder_service.dfy`). The orchestrator. It resolves the
  conversation id and builds the chat options. It records the user turn in the chat memory
  before calling the chat client. It rejects a missing or blank text and a null conversion.
  It records the assistant turn only after a successful conversion. Every failure becomes a
  `FolderGenerationException` with one of two fixed messages. The service is a class whose
  `chatMemory` field (a map from conversation id to messages) is updated in place by
  `GenerateProjectDirectory` and `CallAiModel`. Each method is proved equal to a
  specification function (`GenerateTurn`, `CallTurn`) that returns the result and the new
  memory. The lemmas beside them state the properties.
- **PromptFactory** (`prompt_factory.dfy`, `template_render.dfy`). It loads the user
  template, then the system template, from a partial map from location to content. It renders
  each template against its one-entry map by `{name}` substitution. It returns the two
  messages with the system message first. Every failure is wrapped in a
  `PromptGenerationException`, so a missing template gives a two-level cause chain.
- **TreeFormatter** (`tree_formatter.dfy`). It gives `""` for null or blank text. Otherwise
  it splits on `'\n'` as `String.split` does, turns every `\p{Z}` character into a space and
  joins the lines with the line separator.
- **GlobalExceptionHandler** (`global_exception_handler.dfy`). It maps each exception kind
  to a status, an error label and the exception's message.

Shared definitions: `wrappers.dfy` (Option, Result), `java_text.dfy` (`Character.isWhitespace`,
`\p{Z}`, `isBlank`, `indexOf`, `Collectors.joining`), `exceptions.dfy` (an exception as kind,
nullable message and nullable cause), `chat_model.dfy` (messages, prompts, options, the chat
client's outcome, `Prompt.getUserMessage`) and `dto.dfy` (the request and response records).

The inputs that stand in for collaborators are:
- the chat client, a function from (prompt, options, conversation id, that conversation's
  history) to either a response (a possibly missing text plus metadata) or a thrown exception;
- the `BeanOutputConverter`, a function from text to an optional `DirectoryStructure`;
- its format instructions, a string;
- the UUID that `UUID.randomUUID()` would produce, as its text;
- the resource loader, a map from location to template content;
- the line separator and the handlers' timestamp.

Four behaviours of the code are worth noting:
- Both prompt messages are user-role messages, because both come from
  `PromptTemplate.createMessage`.
- The user template is loaded before the system template.
- A prompt-building failure, or a null conversion, does not reach the client with its own
  message. The catch block in `generateProjectDirectory` turns it into
  "Error during folder generation", so the client sees status 500, not the 404 of the
  `PromptGenerationException` handler (`FailuresReachClientAs500`).
- The memory is not windowed (see below).

## Model

| member | source | states |
|---|---|---|
| `FolderServiceImpl.ResolveConversationId` | folder-ai-services/src/main/java/com/folderai/services/service/impl/FolderServiceImpl.java:46-50 | the request's id when present and not blank, otherwise the freshly generated id |
| `FolderServiceImpl.GetChatOptions` | folder-ai-services/src/main/java/com/folderai/services/service/impl/FolderServiceImpl.java:75-87 | the model is set iff the options are present and their model is non-null and non-blank, and then it is that model; the temperature is set iff present, and then it is that value; otherwise both stay at the builder default |
| `FolderServiceImpl.ParseResponse` | folder-ai-services/src/main/java/com/folderai/services/service/impl/FolderServiceImpl.java:97-111 | succeeds iff the client responded with a present, non-blank text that the converter turns into a structure, and then yields that structure and the response metadata; a thrown exception passes through unchanged; every other failure is a FolderGenerationException |
| `FolderServiceImpl.Classify` | folder-ai-services/src/main/java/com/folderai/services/service/impl/FolderServiceImpl.java:58-69 | always a FolderGenerationException whose cause is the caught exception; its message is "Current quota was exceeded." iff the caught exception is a NonTransientAiException, otherwise "Error during folder generation" |
| `FolderServiceImpl.ToResponse` | folder-ai-services/src/main/java/com/folderai/services/service/impl/FolderServiceImpl.java:113-124 | the response carries the converted structure, the conversation id, the response's model, and its prompt, completion (as generation) and total token counts unchanged |
| `FolderServiceImpl.CallTurn` | folder-ai-services/src/main/java/com/folderai/services/service/impl/FolderServiceImpl.java:89-125 | the client is called with the history that already ends in the user turn; the call fails exactly when checking or converting that outcome fails, with that exception; a failure leaves the user turn added, a success adds the user turn then the assistant turn holding the tree and echoes the id; no other conversation changes |
| `FolderServiceImpl.GenerateTurn` | folder-ai-services/src/main/java/com/folderai/services/service/impl/FolderServiceImpl.java:44-73 | a prompt failure is reclassified and leaves the memory as it was; otherwise the memory is what callAiModel leaves for the resolved id and the built options, its success is returned unchanged and its failure is reclassified |
| `FolderServiceImpl.Append` | folder-ai-services/src/main/java/com/folderai/services/service/impl/FolderServiceImpl.java:92 | adding a message extends that conversation's history by exactly that message and leaves every other conversation's history as it was |
| `FolderServiceImpl.FolderService.constructor` | folder-ai-services/src/main/java/com/folderai/services/service/impl/FolderServiceImpl.java:38-40 | the service keeps the given prompt factory and starts with an empty chat memory |
| `FolderServiceImpl.FolderService.AddToMemory` | folder-ai-services/src/main/java/com/folderai/services/service/impl/FolderServiceImpl.java:92 | chatMemory.add appends the message to the conversation's history |
| `FolderServiceImpl.FolderService.CallAiModel` | folder-ai-services/src/main/java/com/folderai/services/service/impl/FolderServiceImpl.java:89-125 | the result and the new memory are those of CallTurn: the user turn is added before the client is called (the client sees it in the history), and the assistant turn only after a successful conversion |
| `FolderServiceImpl.FolderService.GenerateProjectDirectory` | folder-ai-services/src/main/java/com/folderai/services/service/impl/FolderServiceImpl.java:44-73 | the result and the new memory are those of GenerateTurn: the id is resolved once, a prompt failure leaves the memory untouched, and every failure is reclassified |
| `FolderServiceImpl.UserTurnIsUserTemplate` | folder-ai-services/src/main/java/com/folderai/services/service/impl/FolderServiceImpl.java:92 | the user turn recorded for a structure prompt (the last user-role message) is its second message, the rendered user template |
| `FolderServiceImpl.FailuresCollapse` | folder-ai-services/src/main/java/com/folderai/services/service/impl/FolderServiceImpl.java:58-69 | the service never fails otherwise than with a FolderGenerationException with a cause and one of the two fixed messages |
| `FolderServiceImpl.QuotaOnlyFromClient` | folder-ai-services/src/main/java/com/folderai/services/service/impl/FolderServiceImpl.java:58-65 | the quota message appears iff the prompt was built and the chat client threw a NonTransientAiException; prompt, empty-output and conversion failures get the generic message |
| `FolderServiceImpl.NoAssistantTurnOnFailure` | folder-ai-services/src/main/java/com/folderai/services/service/impl/FolderServiceImpl.java:92-111 | on failure no assistant turn is recorded: a prompt failure leaves the memory as it was, and any later failure leaves exactly the user turn added |
| `FolderServiceImpl.SuccessRecordsBothTurns` | folder-ai-services/src/main/java/com/folderai/services/service/impl/FolderServiceImpl.java:112-124 | on success the client gave a non-blank text that converts to the returned structure; the response echoes the resolved id, the client's model and all three token counts (prompt, completion as generation, total); the history gained exactly the user turn and then the assistant turn holding the tree |
| `FolderServiceImpl.OtherConversationsUntouched` | folder-ai-services/src/main/java/com/folderai/services/service/impl/FolderServiceImpl.java:92-112 | only the resolved conversation's history can change |
| `FolderServiceImpl.FreshConversation` | folder-ai-services/src/main/java/com/folderai/services/service/impl/FolderServiceImpl.java:46-112 | for a request without an id in an unseen conversation with a buildable prompt: two messages after a success, one after a failure, and the response carries the generated id |
| `FolderServiceImpl.FailuresReachClientAs500` | folder-ai-services/src/main/java/com/folderai/services/service/impl/FolderServiceImpl.java:58-69 | every failure of the service is answered with status 500, label "Folder Generation Failed" and one of the two fixed messages |
| `ChatModel.UserMessageOf` | folder-ai-services/src/main/java/com/folderai/services/service/impl/FolderServiceImpl.java:92 | the message recorded as the user turn is the prompt's last user-role message, and it is the empty user message exactly when the prompt has no user-role message |
| `PromptFactory.TemplateNotFound` | folder-ai-services/src/main/java/com/folderai/services/ai/prompt/PromptFactory.java:83-91 | a missing resource gives a FolderFileNotFoundException with exactly one cause below it |
| `PromptFactory.LoadPromptTemplate` | folder-ai-services/src/main/java/com/folderai/services/ai/prompt/PromptFactory.java:80-92 | succeeds iff a resource exists at the location, and then returns its content; otherwise fails with "Failed to load prompt template from: " + location caused by an IOException "Resource not found at location: " + location |
| `PromptFactory.BuildPrompt` | folder-ai-services/src/main/java/com/folderai/services/ai/prompt/PromptFactory.java:61-68 | the first failing step decides: a missing user template, then a missing system template, each as its not-found chain; with both present a render failure is the engine's exception; otherwise exactly [rendered system, rendered user] as user-role messages |
| `PromptFactory.CreatePrompt` | folder-ai-services/src/main/java/com/folderai/services/ai/prompt/PromptFactory.java:56-74 | succeeds iff both templates exist and both render; the prompt is then exactly [rendered system, rendered user], both user-role; every failure is a PromptGenerationException "Failed to generate a complete prompt" with a cause; a missing user template is reported even when the system template is missing too |
| `PromptFactory.CreateStructurePrompt` | folder-ai-services/src/main/java/com/folderai/services/ai/prompt/PromptFactory.java:38-44 | on success two user-role messages: the system template rendered with only format = instructions, then the user template rendered with only prompt = request |
| `PromptFactory.MissingUserTemplateReported` | folder-ai-services/src/main/java/com/folderai/services/ai/prompt/PromptFactory.java:61-73 | a missing user template is the reported cause, and the cause chain is two levels deep |
| `PromptFactory.MissingSystemTemplateReported` | folder-ai-services/src/main/java/com/folderai/services/ai/prompt/PromptFactory.java:61-73 | with the user template present, a missing system template is the reported cause, two levels deep |
| `PromptFactory.StructurePromptSubstitutes` | folder-ai-services/src/main/java/com/folderai/services/ai/prompt/PromptFactory.java:38-68 | templates using only {format} (system) and {prompt} (user) give the system text with the instructions substituted, then the user text with the request substituted |
| `TemplateRender.Render` | folder-ai-services/src/main/java/com/folderai/services/ai/prompt/PromptFactory.java:65-66 | rendering succeeds iff the template is well formed and names only the bound variable; every failure is the engine's render exception |
| `TemplateRender.ParseUnparse` | folder-ai-services/src/main/java/com/folderai/services/ai/prompt/PromptFactory.java:61-66 | parsing the text of well-formed literals and placeholders gives them back |
| `TemplateRender.UnparseParse` | folder-ai-services/src/main/java/com/folderai/services/ai/prompt/PromptFactory.java:61-66 | whatever parses is well formed and is exactly the text of its segments |
| `TemplateRender.RenderIsReplacement` | folder-ai-services/src/main/java/com/folderai/services/ai/prompt/PromptFactory.java:65-66 | rendering replaces every {name} by the bound value and leaves the text between placeholders unchanged |
| `TemplateRender.RenderPlainText` | folder-ai-services/src/main/java/com/folderai/services/ai/prompt/PromptFactory.java:65-66 | a template without placeholders renders to itself |
| `TemplateRender.RenderRejectsForeignPlaceholder` | folder-ai-services/src/main/java/com/folderai/services/ai/prompt/PromptFactory.java:40-42 | a placeholder for a variable other than the bound one makes rendering fail, so each template sees only its own variable |
| `TreeFormatter.CleanAndFormatTree` | folder-ai-services/src/main/java/com/folderai/services/util/TreeFormatter.java:15-23 | null or blank input gives "" |
| `TreeFormatter.SplitAll` | folder-ai-services/src/main/java/com/folderai/services/util/TreeFormatter.java:20 | at least one piece, and no piece holds the delimiter |
| `TreeFormatter.DropTrailingEmpty` | folder-ai-services/src/main/java/com/folderai/services/util/TreeFormatter.java:20 | the result is a prefix of the pieces, does not end with an empty piece, and everything dropped is empty |
| `TreeFormatter.ReplaceSeparators` | folder-ai-services/src/main/java/com/folderai/services/util/TreeFormatter.java:21 | same length; each \p{Z} character becomes U+0020 and every other character is unchanged |
| `TreeFormatter.SplitAllJoin` | folder-ai-services/src/main/java/com/folderai/services/util/TreeFormatter.java:20 | joining the full split with the delimiter restores the text |
| `TreeFormatter.JoinSplitAll` | folder-ai-services/src/main/java/com/folderai/services/util/TreeFormatter.java:20-22 | splitting delimiter-free pieces joined by the delimiter gives the pieces back |
| `TreeFormatter.JavaSplit` | folder-ai-services/src/main/java/com/folderai/services/util/TreeFormatter.java:20 | split with limit 0: the pieces hold no delimiter, joining them restores a prefix of the text and only delimiters follow that prefix, so only trailing empty pieces are dropped; without a delimiter the text is the one piece; otherwise the last piece is not empty |
| `TreeFormatter.CleanLines` | folder-ai-services/src/main/java/com/folderai/services/util/TreeFormatter.java:21 | one cleaned line per line, each of the same length, with every \p{Z} character replaced by U+0020 and every other character kept |
| `TreeFormatter.NonBlankHasLines` | folder-ai-services/src/main/java/com/folderai/services/util/TreeFormatter.java:16-20 | text that is not blank gives at least one line, and its last line is not empty |
| `TreeFormatter.OutputLines` | folder-ai-services/src/main/java/com/folderai/services/util/TreeFormatter.java:20-22 | with "\n" as line separator, the output's lines are exactly the cleaned lines: one per retained piece, no trailing separator |
| `TreeFormatter.OutputLength` | folder-ai-services/src/main/java/com/folderai/services/util/TreeFormatter.java:22 | the output holds the lines plus one separator fewer than there are lines |
| `TreeFormatter.OnlyPlainSpaces` | folder-ai-services/src/main/java/com/folderai/services/util/TreeFormatter.java:21-22 | no \p{Z} character other than U+0020 remains unless the line separator brings one |
| `TreeFormatter.NoBreakSpaceIsKept` | folder-ai-services/src/main/java/com/folderai/services/util/TreeFormatter.java:16-21 | a lone no-break space is not blank under isBlank and comes out as one plain space |
| `JavaText.SeparatorsListed` | folder-ai-services/src/main/java/com/folderai/services/util/TreeFormatter.java:21 | the class \p{Z} (`IsSeparator`) holds exactly the nineteen listed code points: U+0020, U+00A0, U+1680, U+2000-U+200A, U+2028, U+2029, U+202F, U+205F, U+3000 |
| `JavaText.WhitespaceListed` | folder-ai-services/src/main/java/com/folderai/services/util/TreeFormatter.java:16 | Character.isWhitespace (`IsWhitespace`) holds exactly for U+0009-U+000D, U+001C-U+0020, U+1680, U+2000-U+2006, U+2008-U+200A, U+2028, U+2029, U+205F and U+3000: the no-break spaces U+00A0, U+2007 and U+202F are not whitespace |
| `JavaText.BlankByScan` | folder-ai-services/src/main/java/com/folderai/services/util/TreeFormatter.java:16 | String.isBlank (`IsBlank`) holds exactly when the scan for the first non-whitespace code point runs off the end, as the JDK computes it |
| `GlobalExceptionHandler.HandleFolderGenerationException` | folder-ai-services/src/main/java/com/folderai/services/exception/GlobalExceptionHandler.java:25-35 | status 500 in both the entity and the body, label "Folder Generation Failed", the exception's message verbatim, the supplied timestamp |
| `GlobalExceptionHandler.HandlePromptGenerationException` | folder-ai-services/src/main/java/com/folderai/services/exception/GlobalExceptionHandler.java:43-49 | status 404 in both the entity and the body, label "NOT_FOUND", the exception's message verbatim |
| `GlobalExceptionHandler.HandleFileNotFoundException` | folder-ai-services/src/main/java/com/folderai/services/exception/GlobalExceptionHandler.java:58-64 | status 404 in both the entity and the body, label "NOT_FOUND", the exception's message verbatim |
| `GlobalExceptionHandler.Handle` | folder-ai-services/src/main/java/com/folderai/services/exception/GlobalExceptionHandler.java:25-64 | exactly the three exception kinds are handled; the body's status always equals the entity's status, the message is passed through, and the status is 500 iff the exception is a FolderGenerationException |

## Left out

- Chat memory window: `MessageWindowChatMemory` keeps the 20 most recent messages. That is library code configured outside the core, so the memory here grows without bound.
- Chat memory advisor: `MessageChatMemoryAdvisor` reads the history and also writes turns of its own. Its writes are library code and are not modelled. The client function receives the conversation's history as an argument.
- Concurrency: nothing in the service locks the shared memory. Each call is modelled as one atomic step.
- Template engine: `PromptTemplate` is simplified to `{name}` placeholders. A placeholder must be a non-empty name without braces and must name the bound variable. Otherwise rendering fails with an exception whose wording is not modelled. Escapes and other template syntax are not modelled.
- Resource reading: a resource that exists but cannot be read is not modelled. Resources are present or absent.
- `Prompt.getUserMessage`: modelled as the last user-role message, or an empty user message when there is none. This is how the chat library behaves; its code is not part of this model.
- Converter: `BeanOutputConverter` parsing and its format text are inputs. A converter that throws and one that returns null are both `None`. In Java these differ only in the cause kept under the generic message.
- Null fields inside a converted structure are not modelled.
- Null chat response: `Objects.requireNonNull` throws a NullPointerException for a null response. The model folds it into the missing-text case. The user-facing message is the same generic one; only the kept cause differs.
- Response metadata: the metadata and its usage are taken to be non-null, as the chat library guarantees. An exception thrown while reading them would come after the assistant turn is recorded; that case is not modelled.
- UUIDs: the conversation id is held as its canonical text. `UUID.fromString(id)` at line 115 is taken to give back the same id. Random generation is an input.
- Temperature: the `Double` is kept as its 64-bit pattern and only tested for null.
- Logging: the log calls, including the call to `cleanAndFormatTree` that only feeds a log line, have no effect on results and are left out. The handlers' `LocalDateTime.now()` is an input.
- Determinism of the prompt factory holds by construction, because every member here is a function of its arguments. No separate lemma states it.
- Web and configuration plumbing (controller, security, MDC filter, logging aspect, bean wiring, configuration properties binding) and the frontend are outside this model.
