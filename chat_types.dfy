/** The chat request shapes shared by the chat services and the chat store
    (backend/src/types/chat.types.ts, frontend/src/types/chat.ts). */
module ChatTypes {
  import opened Wrappers

  datatype ChatMode = Agent | Chat

  datatype MessageRole = User | Assistant | System

  /** A chat message as the services and the store keep it (timestamps and
      metadata are not modelled). */
  datatype ChatMessage = ChatMessage(id: string, role: MessageRole, content: string, mode: ChatMode)

  /** The editor context a request may carry. */
  datatype RequestContext = RequestContext(currentCode: Option<string>, selectedElement: Option<string>)

  /** `ChatRequest`: `projectId`, `conversationHistory` and `context` are optional. */
  datatype ChatRequest = ChatRequest(
    message: string,
    mode: ChatMode,
    projectId: Option<string>,
    conversationHistory: Option<seq<ChatMessage>>,
    context: Option<RequestContext>)

  /** `x?.currentCode` on an optional context. */
  function CurrentCodeOf(ctx: Option<RequestContext>): Option<string> {
    if ctx.Some? then ctx.value.currentCode else None
  }

  /** `x?.selectedElement` on an optional context. */
  function SelectedElementOf(ctx: Option<RequestContext>): Option<string> {
    if ctx.Some? then ctx.value.selectedElement else None
  }

  /** JavaScript truthiness of an optional text. */
  predicate Present(s: Option<string>) {
    s.Some? && s.value != ""
  }
}
