/**
 * GlobalExceptionHandler: turns each of the three service exceptions into an HTTP error
 * response whose body repeats the status code, names the error and carries the exception's
 * message unchanged. The timestamp (LocalDateTime.now()) is supplied by the caller.
 */
module GlobalExceptionHandler {
  import opened Wrappers
  import opened Exceptions

  datatype HttpStatus = InternalServerError | NotFound {
    /** HttpStatus.value() */
    function Value(): int {
      match this
      case InternalServerError => 500
      case NotFound => 404
    }

    /** HttpStatus.name() */
    function Name(): string {
      match this
      case InternalServerError => "INTERNAL_SERVER_ERROR"
      case NotFound => "NOT_FOUND"
    }
  }

  datatype LocalDateTime = LocalDateTime(iso: string)

  datatype ErrorResponse = ErrorResponse(timestamp: LocalDateTime, status: int, error: string, message: Option<string>)

  datatype ResponseEntity = ResponseEntity(body: ErrorResponse, statusCode: HttpStatus)

  const FolderGenerationFailed := "Folder Generation Failed"

  /** The body's status field agrees with the status the entity is sent with. */
  predicate Consistent(r: ResponseEntity) {
    r.body.status == r.statusCode.Value()
  }

  function HandleFolderGenerationException(exception: Throwable, now: LocalDateTime): (r: ResponseEntity)
    requires exception.kind == FolderGeneration
    ensures Consistent(r) && r.body.status == 500 && r.body.error == FolderGenerationFailed
    ensures r.body.message == exception.message && r.body.timestamp == now
  {
    ResponseEntity(
      ErrorResponse(now, InternalServerError.Value(), FolderGenerationFailed, exception.message),
      InternalServerError)
  }

  function HandlePromptGenerationException(exception: Throwable, now: LocalDateTime): (r: ResponseEntity)
    requires exception.kind == PromptGeneration
    ensures Consistent(r) && r.body.status == 404 && r.body.error == "NOT_FOUND"
    ensures r.body.message == exception.message && r.body.timestamp == now
  {
    ResponseEntity(ErrorResponse(now, NotFound.Value(), NotFound.Name(), exception.message), NotFound)
  }

  function HandleFileNotFoundException(exception: Throwable, now: LocalDateTime): (r: ResponseEntity)
    requires exception.kind == FolderFileNotFound
    ensures Consistent(r) && r.body.status == 404 && r.body.error == "NOT_FOUND"
    ensures r.body.message == exception.message && r.body.timestamp == now
  {
    ResponseEntity(ErrorResponse(now, NotFound.Value(), NotFound.Name(), exception.message), NotFound)
  }

  /**
   * The @ExceptionHandler dispatch: the handler declared for the exception's class, or None
   * when this advice declares none and the framework's default handling applies.
   */
  function Handle(exception: Throwable, now: LocalDateTime): (r: Option<ResponseEntity>)
    ensures r.Some? <==> exception.kind in {FolderGeneration, PromptGeneration, FolderFileNotFound}
    ensures r.Some? ==> Consistent(r.value) && r.value.body.message == exception.message
    ensures r.Some? ==> (r.value.statusCode == InternalServerError <==> exception.kind == FolderGeneration)
  {
    match exception.kind
    case FolderGeneration => Some(HandleFolderGenerationException(exception, now))
    case PromptGeneration => Some(HandlePromptGenerationException(exception, now))
    case FolderFileNotFound => Some(HandleFileNotFoundException(exception, now))
    case _ => None
  }
}
