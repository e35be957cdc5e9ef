/**
 * PromptFactory: loads the user and system templates from their configured locations,
 * renders each against its one-entry map and returns the two rendered messages, system
 * first. Every failure is wrapped in a PromptGenerationException.
 */
module PromptFactory {
  import opened Wrappers
  import opened Exceptions
  import opened ChatModel
  import opened TemplateRender

  const FailedToGenerate := "Failed to generate a complete prompt"
  const PromptVariable := "prompt"
  const FormatVariable := "format"

  /** The configured template locations (prompt.directory.*-prompt-path). */
  datatype PromptProperties = PromptProperties(systemPromptPath: string, userPromptPath: string)

  /**
   * The factory's two final fields: its properties, and the resource loader as the partial
   * map from a location to the content of the resource that exists there.
   */
  datatype Factory = Factory(properties: PromptProperties, resources: map<string, string>)

  /** The exception raised for a location where no resource exists: two causes deep. */
  function TemplateNotFound(location: string): (e: Throwable)
    ensures e.kind == FolderFileNotFound && CauseDepth(e) == 1
  {
    Throwable(FolderFileNotFound, Some("Failed to load prompt template from: " + location),
      Some(Throwable(IOException, Some("Resource not found at location: " + location), None)))
  }

  /** loadPromptTemplate: the template at `location`, or the not-found exception. */
  function LoadPromptTemplate(f: Factory, location: string): (r: Result<string, Throwable>)
    ensures r.Success? <==> location in f.resources
    ensures r.Success? ==> r.value == f.resources[location]
    ensures r.Failure? ==> r.error == TemplateNotFound(location)
  {
    if location in f.resources then Success(f.resources[location])
    else Failure(TemplateNotFound(location))
  }

  /**
   * The body of createPrompt's try block: load user, load system, render system, render user.
   * The first step that fails decides the exception.
   */
  function BuildPrompt(f: Factory, systemPromptPath: string, userPromptPath: string,
                       userMap: Binding, systemMap: Binding): (r: Result<Prompt, Throwable>)
    ensures userPromptPath !in f.resources ==> r == Failure(TemplateNotFound(userPromptPath))
    ensures userPromptPath in f.resources && systemPromptPath !in f.resources ==>
      r == Failure(TemplateNotFound(systemPromptPath))
    ensures userPromptPath in f.resources && systemPromptPath in f.resources ==>
      && (Render(f.resources[systemPromptPath], systemMap).Failure? ==> r == Failure(RenderFailure))
      && (Render(f.resources[userPromptPath], userMap).Failure? ==> r == Failure(RenderFailure))
      && (Render(f.resources[systemPromptPath], systemMap).Success? &&
          Render(f.resources[userPromptPath], userMap).Success? ==>
            r == Success(Prompt([Message(User, Render(f.resources[systemPromptPath], systemMap).value),
                                 Message(User, Render(f.resources[userPromptPath], userMap).value)])))
  {
    var userTemplate :- LoadPromptTemplate(f, userPromptPath);
    var systemTemplate :- LoadPromptTemplate(f, systemPromptPath);
    var systemText :- Render(systemTemplate, systemMap);
    var userText :- Render(userTemplate, userMap);
    Success(Prompt([Message(User, systemText), Message(User, userText)]))
  }

  /** createPrompt: the two-message prompt, or a PromptGenerationException around the cause. */
  function CreatePrompt(f: Factory, systemPromptPath: string, userPromptPath: string,
                        userMap: Binding, systemMap: Binding): (r: Result<Prompt, Throwable>)
    ensures r.Success? <==>
      && userPromptPath in f.resources && systemPromptPath in f.resources
      && Render(f.resources[systemPromptPath], systemMap).Success?
      && Render(f.resources[userPromptPath], userMap).Success?
    ensures r.Success? ==>
      r.value.instructions ==
        [Message(User, Render(f.resources[systemPromptPath], systemMap).value),
         Message(User, Render(f.resources[userPromptPath], userMap).value)]
    ensures r.Failure? ==>
      && r.error.kind == PromptGeneration && r.error.message == Some(FailedToGenerate)
      && r.error.cause.Some? && CauseDepth(r.error) >= 1
    ensures userPromptPath !in f.resources ==>
      r == Failure(Throwable(PromptGeneration, Some(FailedToGenerate), Some(TemplateNotFound(userPromptPath))))
    ensures userPromptPath in f.resources && systemPromptPath !in f.resources ==>
      r == Failure(Throwable(PromptGeneration, Some(FailedToGenerate), Some(TemplateNotFound(systemPromptPath))))
  {
    match BuildPrompt(f, systemPromptPath, userPromptPath, userMap, systemMap)
    case Success(p) => Success(p)
    case Failure(e) => Failure(Throwable(PromptGeneration, Some(FailedToGenerate), Some(e)))
  }

  /** createStructurePrompt: the system template gets only `format`, the user template only `prompt`. */
  function CreateStructurePrompt(f: Factory, userPrompt: string, formatInstructions: string): (r: Result<Prompt, Throwable>)
    ensures r.Success? ==>
      && |r.value.instructions| == 2
      && f.properties.systemPromptPath in f.resources && f.properties.userPromptPath in f.resources
      && r.value.instructions[0].role == User && r.value.instructions[1].role == User
      && Render(f.resources[f.properties.systemPromptPath], Binding(FormatVariable, formatInstructions))
         == Success(r.value.instructions[0].text)
      && Render(f.resources[f.properties.userPromptPath], Binding(PromptVariable, userPrompt))
         == Success(r.value.instructions[1].text)
    ensures r.Failure? ==> r.error.kind == PromptGeneration && r.error.message == Some(FailedToGenerate)
  {
    CreatePrompt(f, f.properties.systemPromptPath, f.properties.userPromptPath,
      Binding(PromptVariable, userPrompt), Binding(FormatVariable, formatInstructions))
  }

  /** The user template is loaded first, so a missing user template is the one reported. */
  lemma MissingUserTemplateReported(f: Factory, userPrompt: string, formatInstructions: string)
    requires f.properties.userPromptPath !in f.resources
    ensures var r := CreateStructurePrompt(f, userPrompt, formatInstructions);
      && r.Failure? && r.error.cause == Some(TemplateNotFound(f.properties.userPromptPath))
      && CauseDepth(r.error) == 2
  {
  }

  /** With the user template present, a missing system template is reported. */
  lemma MissingSystemTemplateReported(f: Factory, userPrompt: string, formatInstructions: string)
    requires f.properties.userPromptPath in f.resources
    requires f.properties.systemPromptPath !in f.resources
    ensures var r := CreateStructurePrompt(f, userPrompt, formatInstructions);
      && r.Failure? && r.error.cause == Some(TemplateNotFound(f.properties.systemPromptPath))
      && CauseDepth(r.error) == 2
  {
  }

  /**
   * Templates whose only placeholders are `{format}` (system) and `{prompt}` (user) give the
   * system text with the format instructions substituted, then the user text with the
   * user's request substituted.
   */
  lemma StructurePromptSubstitutes(f: Factory, userPrompt: string, formatInstructions: string,
                                   systemPieces: seq<string>, userPieces: seq<string>)
    requires |systemPieces| >= 1 && |userPieces| >= 1
    requires forall i :: 0 <= i < |systemPieces| ==> '{' !in systemPieces[i]
    requires forall i :: 0 <= i < |userPieces| ==> '{' !in userPieces[i]
    requires f.properties.systemPromptPath in f.resources
    requires f.resources[f.properties.systemPromptPath] == JavaText.Join(systemPieces, "{format}")
    requires f.properties.userPromptPath in f.resources
    requires f.resources[f.properties.userPromptPath] == JavaText.Join(userPieces, "{prompt}")
    ensures CreateStructurePrompt(f, userPrompt, formatInstructions) == Success(Prompt([
      Message(User, JavaText.Join(systemPieces, formatInstructions)),
      Message(User, JavaText.Join(userPieces, userPrompt))]))
  {
    PlaceholderSpellings();
    PlaceholderTemplate(systemPieces, FormatVariable, "{format}", formatInstructions);
    PlaceholderTemplate(userPieces, PromptVariable, "{prompt}", userPrompt);
    RenderedStructurePrompt(f, userPrompt, formatInstructions,
      JavaText.Join(systemPieces, formatInstructions), JavaText.Join(userPieces, userPrompt));
  }

  /** The placeholders the structure templates use are spelled from the two variable names. */
  lemma PlaceholderSpellings()
    ensures "{format}" == "{" + FormatVariable + "}" && ValidName(FormatVariable)
    ensures "{prompt}" == "{" + PromptVariable + "}" && ValidName(PromptVariable)
  {
  }

  /** A template of '{'-free pieces joined by one placeholder renders to the pieces joined by the value. */
  lemma PlaceholderTemplate(pieces: seq<string>, name: string, placeholder: string, value: string)
    requires |pieces| >= 1
    requires forall i :: 0 <= i < |pieces| ==> '{' !in pieces[i]
    requires ValidName(name) && placeholder == "{" + name + "}"
    ensures Render(JavaText.Join(pieces, placeholder), Binding(name, value)) == Success(JavaText.Join(pieces, value))
  {
    RenderIsReplacement(pieces, Binding(name, value));
  }

  /** Two templates that render to `systemText` and `userText` give exactly that structure prompt. */
  lemma RenderedStructurePrompt(f: Factory, userPrompt: string, formatInstructions: string,
                                systemText: string, userText: string)
    requires f.properties.systemPromptPath in f.resources && f.properties.userPromptPath in f.resources
    requires Render(f.resources[f.properties.systemPromptPath], Binding(FormatVariable, formatInstructions))
      == Success(systemText)
    requires Render(f.resources[f.properties.userPromptPath], Binding(PromptVariable, userPrompt))
      == Success(userText)
    ensures CreateStructurePrompt(f, userPrompt, formatInstructions)
      == Success(Prompt([Message(User, systemText), Message(User, userText)]))
  {
  }
}
