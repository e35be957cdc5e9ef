/**
 * Java exceptions as values: the exception's class, its (nullable) message and its
 * (nullable) cause, so that a cause chain can be inspected like getCause().getCause().
 */
module Exceptions {
  import opened Wrappers

  /** The exception classes the services throw, catch or inspect. */
  datatype Kind =
    | IOException           // java.io.IOException
    | FolderFileNotFound    // FolderFileNotFoundException
    | PromptGeneration      // PromptGenerationException
    | FolderGeneration      // FolderGenerationException
    | NonTransientAi        // Spring AI's NonTransientAiException (quota, bad credentials, ...)
    | NullPointer           // java.lang.NullPointerException
    | TemplateRenderError   // whatever the template engine throws for a template it cannot render
    | PlainException        // java.lang.Exception
    | OtherException        // any other runtime failure of a collaborator

  datatype Throwable = Throwable(kind: Kind, message: Option<string>, cause: Option<Throwable>)

  /** Number of getCause() steps until the chain ends. */
  function CauseDepth(t: Throwable): nat
  {
    match t.cause
    case None => 0
    case Some(c) => 1 + CauseDepth(c)
  }
}
