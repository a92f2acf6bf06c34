/** The chat-mode prompt builder (backend/src/llm/prompts/chat-mode.ts): the user's
    message, then an excerpt of the current code and the selected element when
    the request's context carries them. */
module ChatPrompts {
  import opened Wrappers
  import opened Strings
  import opened ChatTypes
  import AgentPrompts

  /** `CHAT_MODE_SYSTEM_PROMPT` (its fixed text is abbreviated). */
  const ChatSystemPrompt: string := "[chat mode system prompt]"

  /** The code length the chat prompt embeds. */
  const ChatCodeExcerpt: nat := 500

  /** The code block appended for a present `currentCode`. */
  function CodeBlock(code: string): (r: string)
    ensures StartsWith(r, "\n\nCurrent code context:\n```html\n" + Take(code, ChatCodeExcerpt) + "...")
  {
    "\n\nCurrent code context:\n```html\n" + Take(code, ChatCodeExcerpt) + "...\n```"
  }

  /** `CHAT_MODE_USER_PROMPT` */
  function ChatUserPrompt(message: string, context: Option<RequestContext>): (r: string)
    ensures StartsWith(r, message)
    ensures !Present(CurrentCodeOf(context)) && !Present(SelectedElementOf(context)) ==> r == message
  {
    var code := CurrentCodeOf(context);
    var selected := SelectedElementOf(context);
    var withCode := if Present(code) then message + CodeBlock(code.value) else message;
    if Present(selected) then withCode + "\n\nSelected element: " + selected.value else withCode
  }

  /** `generateChatResponse` */
  function GenerateChatResponse(message: string, context: Option<RequestContext>): (p: AgentPrompts.Prompt)
    ensures p.systemPrompt == ChatSystemPrompt
    ensures StartsWith(p.userPrompt, message)
  {
    AgentPrompts.Prompt(ChatSystemPrompt, ChatUserPrompt(message, context))
  }

  /** With both context members present, the code block comes first and the
      selected element line last. */
  lemma ChatPromptLayout(message: string, code: string, selected: string)
    requires code != "" && selected != ""
    ensures ChatUserPrompt(message, Some(RequestContext(Some(code), Some(selected))))
      == message + CodeBlock(code) + "\n\nSelected element: " + selected
  {
  }

  /** The prompt depends on the current code only through its first 500
      characters. */
  lemma ChatPromptCodeExcerptOnly(message: string, c1: string, c2: string, selected: Option<string>)
    requires c1 != "" && c2 != ""
    requires Take(c1, ChatCodeExcerpt) == Take(c2, ChatCodeExcerpt)
    ensures ChatUserPrompt(message, Some(RequestContext(Some(c1), selected)))
         == ChatUserPrompt(message, Some(RequestContext(Some(c2), selected)))
  {
  }

  /** Without a code context no code block is added, with only a selected
      element exactly one line is appended. */
  lemma ChatPromptSelectionOnly(message: string, selected: string)
    requires selected != ""
    ensures ChatUserPrompt(message, Some(RequestContext(None, Some(selected))))
         == message + "\n\nSelected element: " + selected
  {
  }
}
