/** The request and response records of the folder service (records without behaviour). */
module Dto {
  import opened Wrappers
  import opened ChatModel

  /** Optional model parameters of a request; each field is nullable. */
  datatype FolderModelOptions = FolderModelOptions(model: Option<string>, temperature: Option<Temperature>)

  /**
   * A generation request. The conversation id is a java.util.UUID, held here as its canonical
   * text (what toString() returns).
   */
  datatype FolderRequest = FolderRequest(
    prompt: string,
    conversationId: Option<string>,
    chatOptions: Option<FolderModelOptions>)

  /** The structured answer the model's text must convert to. */
  datatype DirectoryStructure = DirectoryStructure(projectName: string, tree: string)

  datatype FolderUsage = FolderUsage(promptTokens: Option<int>, generationTokens: Option<int>, totalTokens: Option<int>)

  datatype FolderMetaData = FolderMetaData(model: string, usage: FolderUsage)

  datatype FolderResponse = FolderResponse(
    directoryStructure: DirectoryStructure,
    conversationId: string,
    metaData: FolderMetaData)
}
